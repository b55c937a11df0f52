/** The data model of the PC-build wizard: the nine part categories, the part
    record with its optional compatibility attributes, the build (at most one
    part per category) and the order in which the wizard visits the categories. */
module Types {

  /** An optional value; `None` stands for a JavaScript `undefined` or `null`. */
  datatype Option<+T> = None | Some(value: T)

  /** The nine categories, in the enum's declaration order. */
  datatype Category = CPU | MOBO | RAM | GPU | STORAGE | PSU | CASE | COOLER | MONITOR

  /** The string value each enum member carries; it is the key text of a build entry. */
  function Label(c: Category): string
  {
    match c
    case CPU => "Processor"
    case MOBO => "Motherboard"
    case RAM => "Memory"
    case GPU => "Graphics Card"
    case STORAGE => "Storage"
    case PSU => "Power Supply"
    case CASE => "Cabinet"
    case COOLER => "Cooler"
    case MONITOR => "Monitor"
  }

  /** The enum's string values are pairwise distinct and each is a single line of text. */
  lemma LabelsDistinctSingleLine()
    ensures forall c, d :: Label(c) == Label(d) ==> c == d
    ensures forall c :: '\n' !in Label(c)
  {
  }

  /** The closed string sets of the optional compatibility attributes. */
  datatype MemoryType = DDR4 | DDR5
  datatype FormFactor = ATX | MATX | ITX
  datatype StorageType = NVMe | SATA

  /** A catalogue part. The image URL and the floating-point rating are not modelled. */
  datatype Part = Part(
    id: string,
    name: string,
    price: int,
    category: Category,
    brand: string,
    socket: Option<string>,
    chipset: Option<string>,
    memoryType: Option<MemoryType>,
    wattage: Option<int>,
    formFactor: Option<FormFactor>,
    storageType: Option<StorageType>)

  /** A build holds at most one part per category: a partial map keyed by category. */
  type BuildState = map<Category, Part>

  /** Every stored part sits under its own category. */
  predicate KeysMatch(b: BuildState)
  {
    forall c :: c in b ==> b[c].category == c
  }

  /** The order in which the wizard visits the categories (not the declaration order). */
  const CategoryOrder: seq<Category> := [CPU, MOBO, RAM, GPU, STORAGE, COOLER, PSU, CASE, MONITOR]

  /** The wizard step at which a category is chosen. */
  function StepOf(c: Category): (i: nat)
    ensures i < |CategoryOrder| && CategoryOrder[i] == c
    ensures forall j :: 0 <= j < |CategoryOrder| && CategoryOrder[j] == c ==> j == i
  {
    match c
    case CPU => 0
    case MOBO => 1
    case RAM => 2
    case GPU => 3
    case STORAGE => 4
    case COOLER => 5
    case PSU => 6
    case CASE => 7
    case MONITOR => 8
  }

  /** The wizard order has nine entries, lists each category exactly once and so is a
      permutation of the enum. */
  lemma CategoryOrderIsPermutation()
    ensures |CategoryOrder| == 9
    ensures forall i, j :: 0 <= i < j < |CategoryOrder| ==> CategoryOrder[i] != CategoryOrder[j]
    ensures forall c: Category :: c in CategoryOrder
  {
    forall c: Category ensures c in CategoryOrder {
      var i := StepOf(c);
    }
  }

  /** The wizard starts with CPU, motherboard and memory, in that order. */
  lemma CategoryOrderStartsCpuMoboRam()
    ensures CategoryOrder[..3] == [CPU, MOBO, RAM]
    ensures StepOf(CPU) < StepOf(MOBO) < StepOf(RAM)
    ensures StepOf(MOBO) < StepOf(CASE)
  {
  }
}
