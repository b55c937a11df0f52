/** The static parts catalogue, one literal list that is never updated. Each part is
    also a named constant so that concrete lemmas can refer to it. */
module Catalog {
  import opened Types

  // Processors
  const Cpu1: Part := Part("cpu-1", "Intel Core i5-13600K", 28500, CPU, "Intel",
    Some("LGA1700"), None, Some(DDR5), Some(125), None, None)
  const Cpu2: Part := Part("cpu-2", "AMD Ryzen 5 7600X", 21999, CPU, "AMD",
    Some("AM5"), None, Some(DDR5), Some(105), None, None)
  const Cpu3: Part := Part("cpu-3", "Intel Core i9-14900K", 54999, CPU, "Intel",
    Some("LGA1700"), None, Some(DDR5), Some(253), None, None)
  const Cpu4: Part := Part("cpu-4", "AMD Ryzen 7 5700X", 16500, CPU, "AMD",
    Some("AM4"), None, Some(DDR4), Some(65), None, None)

  // Motherboards
  const Mobo1: Part := Part("mobo-1", "MSI PRO Z790-P WiFi", 22500, MOBO, "MSI",
    Some("LGA1700"), None, Some(DDR5), None, Some(ATX), None)
  const Mobo2: Part := Part("mobo-2", "Gigabyte B650 Gaming X AX", 18999, MOBO, "Gigabyte",
    Some("AM5"), None, Some(DDR5), None, Some(ATX), None)
  const Mobo3: Part := Part("mobo-3", "ASUS TUF Gaming B550-Plus", 14500, MOBO, "ASUS",
    Some("AM4"), None, Some(DDR4), None, Some(ATX), None)

  // Memory
  const Ram1: Part := Part("ram-1", "Corsair Vengeance RGB 32GB (16x2) DDR5 6000MHz", 11500, RAM, "Corsair",
    None, None, Some(DDR5), None, None, None)
  const Ram2: Part := Part("ram-2", "G.Skill Ripjaws V 16GB (8x2) DDR4 3600MHz", 4500, RAM, "G.Skill",
    None, None, Some(DDR4), None, None, None)
  const Ram3: Part := Part("ram-3", "Adata XPG Lancer 16GB DDR5 5200MHz", 5200, RAM, "Adata",
    None, None, Some(DDR5), None, None, None)

  // Graphics cards
  const Gpu1: Part := Part("gpu-1", "Zotac Gaming GeForce RTX 4060 8GB", 29000, GPU, "NVIDIA",
    None, None, None, Some(115), None, None)
  const Gpu2: Part := Part("gpu-2", "Asus Dual Radeon RX 7700 XT 12GB", 43500, GPU, "AMD",
    None, None, None, Some(245), None, None)
  const Gpu3: Part := Part("gpu-3", "Gigabyte GeForce RTX 4070 Ti Super 16GB", 84999, GPU, "NVIDIA",
    None, None, None, Some(285), None, None)

  // Storage
  const Sto1: Part := Part("sto-1", "WD Black SN850X 1TB NVMe", 8500, STORAGE, "Western Digital",
    None, None, None, None, None, Some(NVMe))
  const Sto2: Part := Part("sto-2", "Crucial P3 Plus 1TB PCIe 4.0", 5900, STORAGE, "Crucial",
    None, None, None, None, None, Some(NVMe))

  // Power supplies
  const Psu1: Part := Part("psu-1", "Corsair RM750e 750W 80+ Gold", 9500, PSU, "Corsair",
    None, None, None, Some(750), None, None)
  const Psu2: Part := Part("psu-2", "Deepcool PM650D 650W 80+ Gold", 5500, PSU, "Deepcool",
    None, None, None, Some(650), None, None)
  const Psu3: Part := Part("psu-3", "MSI MAG A850GL 850W PCIE5", 10500, PSU, "MSI",
    None, None, None, Some(850), None, None)

  // Cabinets
  const Case1: Part := Part("case-1", "NZXT H5 Flow RGB", 8900, CASE, "NZXT",
    None, None, None, None, Some(ATX), None)
  const Case2: Part := Part("case-2", "Ant Esports ICE-100 Air Mini", 3500, CASE, "Ant Esports",
    None, None, None, None, Some(MATX), None)
  const Case3: Part := Part("case-3", "Lian Li Lancool 216", 8999, CASE, "Lian Li",
    None, None, None, None, Some(ATX), None)

  // Coolers
  const Cool1: Part := Part("cool-1", "Deepcool AK620 Digital Air Cooler", 6500, COOLER, "Deepcool",
    None, None, None, None, None, None)
  const Cool2: Part := Part("cool-2", "Cooler Master MasterLiquid 240L", 5800, COOLER, "Cooler Master",
    None, None, None, None, None, None)

  // Monitors
  const Mon1: Part := Part("mon-1", "LG Ultragear 27\" 1440p 144Hz (27GN800)", 23000, MONITOR, "LG",
    None, None, None, None, None, None)
  const Mon2: Part := Part("mon-2", "Acer Nitro VG240YS 24\" 1080p 165Hz", 10500, MONITOR, "Acer",
    None, None, None, None, None, None)

  /** The catalogue, in its literal order. */
  const PartsDatabase: seq<Part> := [
    Cpu1, Cpu2, Cpu3, Cpu4,
    Mobo1, Mobo2, Mobo3,
    Ram1, Ram2, Ram3,
    Gpu1, Gpu2, Gpu3,
    Sto1, Sto2,
    Psu1, Psu2, Psu3,
    Case1, Case2, Case3,
    Cool1, Cool2,
    Mon1, Mon2
  ]

  /** No two catalogue entries share an id. */
  predicate IdsDistinct(db: seq<Part>)
  {
    forall i, j :: 0 <= i < j < |db| ==> db[i].id != db[j].id
  }

  /** A proof device, not part of the program: the catalogue's ids follow the pattern
      "<prefix>-<n>", where the prefix names the group and n counts from one inside it.
      Read that way, an id gives back the position of its part in the catalogue, which
      is how `CatalogueIdsDistinct` shows that no two ids coincide. The value -100 only
      marks a prefix outside the catalogue. */
  function IdPosition(id: string): int
  {
    if |id| < 3 then -1
    else
      var groupStart :=
        match (id[0], id[2])
        case ('c', 'u') => 0   // cpu-
        case ('m', 'b') => 4   // mobo-
        case ('r', 'm') => 7   // ram-
        case ('g', 'u') => 10  // gpu-
        case ('s', 'o') => 13  // sto-
        case ('p', 'u') => 15  // psu-
        case ('c', 's') => 18  // case-
        case ('c', 'o') => 21  // cool-
        case ('m', 'n') => 23  // mon-
        case _ => -100;
      groupStart + (id[|id| - 1] as int - '1' as int)
  }

  lemma IdGivesPosition(i: int)
    requires 0 <= i < |PartsDatabase|
    ensures IdPosition(PartsDatabase[i].id) == i
  {
    if i < 13 {
      IdGivesPositionUpTo13(i);
    } else {
      IdGivesPositionFrom13(i);
    }
  }

  lemma IdGivesPositionUpTo13(i: int)
    requires 0 <= i < 13
    ensures IdPosition(PartsDatabase[i].id) == i
  {
  }

  lemma IdGivesPositionFrom13(i: int)
    requires 13 <= i < |PartsDatabase|
    ensures IdPosition(PartsDatabase[i].id) == i
  {
  }

  /** Catalogue ids are pairwise distinct. */
  lemma CatalogueIdsDistinct()
    ensures IdsDistinct(PartsDatabase)
  {
    forall i, j | 0 <= i < j < |PartsDatabase|
      ensures PartsDatabase[i].id != PartsDatabase[j].id
    {
      IdGivesPosition(i);
      IdGivesPosition(j);
    }
  }

  /** The literal lists each category's parts as one contiguous run: the run of c
      starts at GroupStart(c) and ends before GroupEnd(c). */
  function GroupStart(c: Category): nat
  {
    match c
    case CPU => 0
    case MOBO => 4
    case RAM => 7
    case GPU => 10
    case STORAGE => 13
    case PSU => 15
    case CASE => 18
    case COOLER => 21
    case MONITOR => 23
  }

  function GroupEnd(c: Category): nat
  {
    match c
    case CPU => 4
    case MOBO => 7
    case RAM => 10
    case GPU => 13
    case STORAGE => 15
    case PSU => 18
    case CASE => 21
    case COOLER => 23
    case MONITOR => 25
  }

  /** A part lies in the run of c exactly when its category is c; every run is non-empty. */
  lemma GroupBounds(c: Category)
    ensures 0 <= GroupStart(c) < GroupEnd(c) <= |PartsDatabase|
    ensures forall i :: 0 <= i < |PartsDatabase| ==>
      (PartsDatabase[i].category == c <==> GroupStart(c) <= i < GroupEnd(c))
  {
  }

  /** The catalogue parts of one category, in literal order. */
  function Group(c: Category): seq<Part>
  {
    PartsDatabase[GroupStart(c)..GroupEnd(c)]
  }

  /** The runs the concrete scenarios look at, written out. */
  lemma ProcessorRun()
    ensures Group(CPU) == [Cpu1, Cpu2, Cpu3, Cpu4]
  {
    assert |Group(CPU)| == 4;
    assert PartsDatabase[0] == Cpu1 && Group(CPU)[0] == PartsDatabase[0];
    assert PartsDatabase[1] == Cpu2 && Group(CPU)[1] == PartsDatabase[1];
    assert PartsDatabase[2] == Cpu3 && Group(CPU)[2] == PartsDatabase[2];
    assert PartsDatabase[3] == Cpu4 && Group(CPU)[3] == PartsDatabase[3];
  }

  lemma BoardRun()
    ensures Group(MOBO) == [Mobo1, Mobo2, Mobo3]
  {
    assert |Group(MOBO)| == 3;
    assert PartsDatabase[4] == Mobo1 && Group(MOBO)[0] == PartsDatabase[4];
    assert PartsDatabase[5] == Mobo2 && Group(MOBO)[1] == PartsDatabase[5];
    assert PartsDatabase[6] == Mobo3 && Group(MOBO)[2] == PartsDatabase[6];
  }

  lemma MemoryRun()
    ensures Group(RAM) == [Ram1, Ram2, Ram3]
  {
    assert |Group(RAM)| == 3;
    assert PartsDatabase[7] == Ram1 && Group(RAM)[0] == PartsDatabase[7];
    assert PartsDatabase[8] == Ram2 && Group(RAM)[1] == PartsDatabase[8];
    assert PartsDatabase[9] == Ram3 && Group(RAM)[2] == PartsDatabase[9];
  }

  lemma CaseRun()
    ensures Group(CASE) == [Case1, Case2, Case3]
  {
    assert |Group(CASE)| == 3;
    assert PartsDatabase[18] == Case1 && Group(CASE)[0] == PartsDatabase[18];
    assert PartsDatabase[19] == Case2 && Group(CASE)[1] == PartsDatabase[19];
    assert PartsDatabase[20] == Case3 && Group(CASE)[2] == PartsDatabase[20];
  }

  /** Every catalogue price is a positive whole number. */
  lemma PricesPositive()
    ensures forall i :: 0 <= i < |PartsDatabase| ==> PartsDatabase[i].price > 0
  {
  }

  /** The socket values the catalogue uses. */
  predicate KnownSocket(s: Option<string>)
  {
    s == Some("LGA1700") || s == Some("AM5") || s == Some("AM4")
  }

  /** Every processor and every motherboard names one of the known sockets. */
  lemma SocketsKnown()
    ensures forall i :: 0 <= i < |PartsDatabase| && PartsDatabase[i].category in {CPU, MOBO} ==>
      KnownSocket(PartsDatabase[i].socket)
  {
  }

  /** In particular every processor in its run has a socket. */
  lemma ProcessorsHaveSockets()
    ensures forall i :: 0 <= i < |Group(CPU)| ==> Group(CPU)[i].socket.Some?
  {
    ProcessorRun();
    var cpus := [Cpu1, Cpu2, Cpu3, Cpu4];
    assert cpus[0].socket.Some? && cpus[1].socket.Some? && cpus[2].socket.Some? && cpus[3].socket.Some?;
  }

  /** Every motherboard and every memory kit states its memory type. */
  lemma MemoryTypesStated()
    ensures forall i :: 0 <= i < |PartsDatabase| && PartsDatabase[i].category in {MOBO, RAM} ==>
      PartsDatabase[i].memoryType.Some?
  {
  }

  /** Every category has at least one part on offer. */
  lemma EveryCategoryStocked(c: Category)
    ensures exists i :: 0 <= i < |PartsDatabase| && PartsDatabase[i].category == c
  {
    var i := match c
      case CPU => 0 case MOBO => 4 case RAM => 7 case GPU => 10 case STORAGE => 13
      case PSU => 15 case CASE => 18 case COOLER => 21 case MONITOR => 23;
    assert PartsDatabase[i].category == c;
  }

  /** All motherboards are ATX boards, and case-2 is the one case that is not ATX. */
  lemma FormFactors()
    ensures forall i :: 0 <= i < |PartsDatabase| && PartsDatabase[i].category == MOBO ==>
      PartsDatabase[i].formFactor == Some(ATX)
    ensures forall i :: 0 <= i < |PartsDatabase| && PartsDatabase[i].category == CASE ==>
      (PartsDatabase[i].formFactor != Some(ATX) <==> PartsDatabase[i] == Case2)
    ensures Case2.formFactor == Some(MATX)
  {
  }

  /** mobo-2 is the only AM5 motherboard, the socket of cpu-2. */
  lemma OnlyAm5Board()
    ensures Cpu2.socket == Mobo2.socket == Some("AM5")
    ensures forall i :: 0 <= i < |PartsDatabase| && PartsDatabase[i].category == MOBO ==>
      (PartsDatabase[i].socket == Some("AM5") <==> PartsDatabase[i] == Mobo2)
  {
  }
}
