/** The admin comps table: the search filter its count and listing share,
    the page arithmetic, the newest-first order, and the constant lookup
    tables. The database is a sequence of comps. */
module CompsData {
  import opened Common

  /** `ITEMS_PER_PAGE` */
  const ItemsPerPage := 8

  /** The fields of a comp that the queries read. */
  datatype Comp = Comp(id: string, name: string, description: string, compType: string, createdAt: int)

  // ---------------------------------------------------------------------
  // Search

  /** The `where` clause: the query occurs in the name, the description or
      the type, ignoring case. */
  predicate Matches(c: Comp, q: string) {
    var query := ToLower(q);
    Contains(ToLower(c.name), query) || Contains(ToLower(c.description), query) ||
    Contains(ToLower(c.compType), query)
  }

  /** The comps of the store that match, in store order. */
  function Filter(store: seq<Comp>, q: string): (r: seq<Comp>)
    ensures forall c :: c in r <==> c in store && Matches(c, q)
    ensures |r| <= |store|
    ensures multiset(r) <= multiset(store)
  {
    if store == [] then []
    else
      assert store == [store[0]] + store[1..];
      (if Matches(store[0], q) then [store[0]] else []) + Filter(store[1..], q)
  }

  /** The filter keeps every matching comp exactly as often as the store
      holds it, and no other comp. */
  lemma {:induction false} FilterCounts(store: seq<Comp>, q: string)
    ensures forall c :: multiset(Filter(store, q))[c] == if Matches(c, q) then multiset(store)[c] else 0
  {
    if store != [] {
      FilterCounts(store[1..], q);
      assert store == [store[0]] + store[1..];
      assert multiset(store) == multiset{store[0]} + multiset(store[1..]);
    }
  }

  /** The empty query matches every comp. */
  lemma EmptyQueryMatchesAll(store: seq<Comp>)
    ensures Filter(store, "") == store
  {
    forall c | c in store
      ensures Matches(c, "")
    {
      PrefixContained("", ToLower(c.name));
    }
    FilterKeepsAll(store, "");
  }

  lemma {:induction false} FilterKeepsAll(store: seq<Comp>, q: string)
    requires forall c :: c in store ==> Matches(c, q)
    ensures Filter(store, q) == store
  {
    if store != [] {
      FilterKeepsAll(store[1..], q);
      assert store == [store[0]] + store[1..];
    }
  }

  // ---------------------------------------------------------------------
  // Order: `orderBy: { createdAt: "desc" }`

  predicate NewestFirst(s: seq<Comp>) {
    forall i, j :: 0 <= i < j < |s| ==> s[i].createdAt >= s[j].createdAt
  }

  /** Places `c` before the first comp that is not newer than it. */
  function Insert(c: Comp, s: seq<Comp>): seq<Comp> {
    if s == [] || s[0].createdAt <= c.createdAt then [c] + s
    else [s[0]] + Insert(c, s[1..])
  }

  lemma {:induction false} InsertCounts(c: Comp, s: seq<Comp>)
    ensures multiset(Insert(c, s)) == multiset(s) + multiset{c}
    ensures |Insert(c, s)| == |s| + 1
  {
    if s != [] && s[0].createdAt > c.createdAt {
      InsertCounts(c, s[1..]);
      assert s == [s[0]] + s[1..];
    }
  }

  lemma {:induction false} InsertSorted(c: Comp, s: seq<Comp>)
    requires NewestFirst(s)
    ensures NewestFirst(Insert(c, s))
  {
    if s != [] && s[0].createdAt > c.createdAt {
      InsertSorted(c, s[1..]);
      InsertCounts(c, s[1..]);
      var r := Insert(c, s[1..]);
      forall j | 0 <= j < |r|
        ensures s[0].createdAt >= r[j].createdAt
      {
        assert r[j] in multiset(r);
        if r[j] != c {
          assert r[j] in multiset(s[1..]);
          var k :| 0 <= k < |s[1..]| && s[1..][k] == r[j];
          assert s[1 + k] == r[j];
        }
      }
      assert Insert(c, s) == [s[0]] + r;
    }
  }

  /** The comps newest first (insertion sort). */
  function SortNewestFirst(s: seq<Comp>): seq<Comp> {
    if s == [] then [] else Insert(s[0], SortNewestFirst(s[1..]))
  }

  /** Sorting orders the comps newest first and neither adds nor drops any. */
  lemma {:induction false} SortSpec(s: seq<Comp>)
    ensures NewestFirst(SortNewestFirst(s))
    ensures multiset(SortNewestFirst(s)) == multiset(s)
    ensures |SortNewestFirst(s)| == |s|
  {
    if s != [] {
      var rest := SortNewestFirst(s[1..]);
      SortSpec(s[1..]);
      InsertSorted(s[0], rest);
      InsertCounts(s[0], rest);
      assert s == [s[0]] + s[1..];
      assert multiset(s) == multiset{s[0]} + multiset(s[1..]);
    }
  }

  /** Everything the count counts, in listing order. */
  function Listing(store: seq<Comp>, q: string): seq<Comp> {
    SortNewestFirst(Filter(store, q))
  }

  /** The listing holds exactly the matching comps, each as often as the
      store does, newest first. */
  lemma ListingSpec(store: seq<Comp>, q: string)
    ensures NewestFirst(Listing(store, q))
    ensures multiset(Listing(store, q)) == multiset(Filter(store, q))
    ensures |Listing(store, q)| == |Filter(store, q)|
    ensures forall c :: c in Listing(store, q) <==> c in store && Matches(c, q)
    ensures forall c :: multiset(Listing(store, q))[c] == if Matches(c, q) then multiset(store)[c] else 0
  {
    SortSpec(Filter(store, q));
    FilterCounts(store, q);
    ListingMembers(store, q);
  }

  /** Membership and length of the listing alone. */
  lemma ListingMembers(store: seq<Comp>, q: string)
    ensures |Listing(store, q)| == |Filter(store, q)|
    ensures forall c :: c in Listing(store, q) <==> c in store && Matches(c, q)
  {
    SortSpec(Filter(store, q));
    forall c
      ensures c in Listing(store, q) <==> c in Filter(store, q)
    {
      assert c in Listing(store, q) <==> c in multiset(Listing(store, q));
    }
  }

  // ---------------------------------------------------------------------
  // Page arithmetic

  /** `Math.ceil(count / ITEMS_PER_PAGE)` */
  function TotalPages(count: nat): (pages: nat)
    ensures count == 0 <==> pages == 0
    ensures pages * ItemsPerPage >= count
    ensures count > 0 ==> (pages - 1) * ItemsPerPage < count
  {
    (count + ItemsPerPage - 1) / ItemsPerPage
  }

  /** `(currentPage - 1) * ITEMS_PER_PAGE` */
  function Offset(currentPage: int): (offset: int)
    ensures currentPage == 1 ==> offset == 0
    ensures offset % ItemsPerPage == 0
  {
    (currentPage - 1) * ItemsPerPage
  }

  /** Consecutive pages start a page apart. */
  lemma OffsetStep(page: int)
    ensures Offset(page + 1) == Offset(page) + ItemsPerPage
  {
  }

  /** Every page from 1 to the page count starts inside the listing. */
  lemma OffsetBelowCount(count: nat, page: int)
    requires 1 <= page <= TotalPages(count)
    ensures 0 <= Offset(page) < count
  {
  }

  /** `skip: skip, take: ITEMS_PER_PAGE` */
  function Window(s: seq<Comp>, skip: nat): (r: seq<Comp>)
    ensures |r| <= ItemsPerPage
    ensures skip <= |s| ==> r == s[skip..if skip + ItemsPerPage <= |s| then skip + ItemsPerPage else |s|]
    ensures skip >= |s| ==> r == []
  {
    if skip >= |s| then []
    else if skip + ItemsPerPage <= |s| then s[skip..skip + ItemsPerPage]
    else s[skip..]
  }

  // ---------------------------------------------------------------------
  // The two queries

  /** `fetchCompsPages(q)` */
  function FetchCompsPages(store: seq<Comp>, q: string): (pages: nat)
    ensures pages == TotalPages(|Filter(store, q)|)
  {
    TotalPages(|Filter(store, q)|)
  }

  datatype FetchResult = Rows(comps: seq<Comp>) | DatabaseError(message: string)

  const FetchFailed := "Failed to fetch comps."

  /** `fetchFilteredComps(q, currentPage)`: the page's window of the
      listing; a negative skip is refused by the database, which surfaces as
      the fixed error. */
  function FetchFilteredComps(store: seq<Comp>, q: string, currentPage: int): (r: FetchResult)
    ensures r.DatabaseError? <==> currentPage < 1
    ensures r.DatabaseError? ==> r.message == FetchFailed
    ensures r.Rows? ==> |r.comps| <= ItemsPerPage && NewestFirst(r.comps)
    ensures r.Rows? ==> forall c :: c in r.comps ==> c in store && Matches(c, q)
    ensures r.Rows? && currentPage > FetchCompsPages(store, q) ==> r.comps == []
  {
    var offset := Offset(currentPage);
    if offset < 0 then DatabaseError(FetchFailed)
    else
      var listing := Listing(store, q);
      ListingSpec(store, q);
      WindowSorted(listing, offset);
      Rows(Window(listing, offset))
  }

  lemma WindowSorted(s: seq<Comp>, skip: nat)
    requires NewestFirst(s)
    ensures NewestFirst(Window(s, skip))
    ensures forall c :: c in Window(s, skip) ==> c in s
  {
    if skip < |s| {
      var hi := if skip + ItemsPerPage <= |s| then skip + ItemsPerPage else |s|;
      forall c | c in s[skip..hi]
        ensures c in s
      {
        var k :| 0 <= k < hi - skip && s[skip..hi][k] == c;
        assert s[skip + k] == c;
      }
    }
  }

  /** Pages 1 to `pages`, one after the other. */
  function FirstPages(s: seq<Comp>, pages: nat): seq<Comp> {
    if pages == 0 then [] else FirstPages(s, pages - 1) + Window(s, (pages - 1) * ItemsPerPage)
  }

  lemma {:induction false} FirstPagesPrefix(s: seq<Comp>, pages: nat)
    ensures FirstPages(s, pages) == s[..if pages * ItemsPerPage <= |s| then pages * ItemsPerPage else |s|]
  {
    if pages > 0 {
      FirstPagesPrefix(s, pages - 1);
      var lo := (pages - 1) * ItemsPerPage;
      assert pages * ItemsPerPage == lo + ItemsPerPage;
      var hi := if lo + ItemsPerPage <= |s| then lo + ItemsPerPage else |s|;
      if lo <= |s| {
        assert FirstPages(s, pages - 1) == s[..lo];
        assert Window(s, lo) == s[lo..hi];
        assert s[..hi] == s[..lo] + s[lo..hi];
      } else {
        assert FirstPages(s, pages - 1) == s[..|s|];
        assert Window(s, lo) == [];
      }
    }
  }

  /** Pages 1 to the page count, concatenated, are the whole listing: the
      count and the listing agree, and the pages neither overlap nor leave a
      gap. */
  lemma PagesCoverListing(store: seq<Comp>, q: string)
    ensures FirstPages(Listing(store, q), FetchCompsPages(store, q)) == Listing(store, q)
  {
    var listing := Listing(store, q);
    ListingSpec(store, q);
    FirstPagesPrefix(listing, FetchCompsPages(store, q));
  }

  /** A comp is on some page from 1 to the page count exactly when it is in
      the store and matches the query. */
  lemma OnSomePage(store: seq<Comp>, q: string, c: Comp)
    ensures (exists p :: 1 <= p <= FetchCompsPages(store, q) && c in FetchFilteredComps(store, q, p).comps)
            <==> c in store && Matches(c, q)
  {
    var listing := Listing(store, q);
    ListingMembers(store, q);
    if c in store && Matches(c, q) {
      var k :| 0 <= k < |listing| && listing[k] == c;
      var p := k / ItemsPerPage + 1;
      var skip := Offset(p);
      assert skip <= k < skip + ItemsPerPage;
      assert 1 <= p <= FetchCompsPages(store, q);
      var w := Window(listing, skip);
      assert w[k - skip] == c;
      assert c in FetchFilteredComps(store, q, p).comps;
    }
  }

  // ---------------------------------------------------------------------
  // Lookup tables

  datatype Status = Status(id: int, value: string)
  datatype Category = Category(id: int, name: string)
  datatype CompType = CompType(id: int, name: string)

  /** `statuses` */
  const Statuses: seq<Status> := [Status(1, "Out of Stock"), Status(2, "In Stock")]

  /** `categories` */
  const Categories: seq<Category> := [
    Category(1, "Resistors"),
    Category(2, "Capacitors"),
    Category(3, "Inductors"),
    Category(4, "Relays"),
    Category(5, "Switching Components"),
    Category(6, "Sensors"),
    Category(7, "Actuators"),
    Category(8, "Microcontrollers"),
    Category(9, "Integrated Circuits (ICs)"),
    Category(10, "Transistors"),
    Category(11, "Diodes"),
    Category(12, "Power Supply Components"),
    Category(13, "Connectors"),
    Category(14, "LEDs"),
    Category(15, "Displays"),
    Category(16, "Motors"),
    Category(17, "Communication Modules"),
    Category(18, "Batteries"),
    Category(19, "Development Boards"),
    Category(20, "Prototyping Accessories"),
    Category(21, "Switches"),
    Category(22, "Passive Components"),
    Category(23, "Active Components"),
    Category(24, "Electromechanical Components"),
    Category(25, "Heat Sinks"),
    Category(26, "Cables and Wires"),
    Category(27, "Audio Components"),
    Category(28, "Networking Components"),
    Category(29, "RF Components"),
    Category(30, "Storage Components"),
    Category(31, "Measurement Instruments"),
    Category(32, "Single-board Computer"),
    Category(33, "Arduino Boards"),
    Category(34, "I\U{00B2}C Modules"),
    Category(35, "Character Displays"),
    Category(36, "Input Devices"),
    Category(37, "Keypads"),
    Category(38, "Membrane Switches"),
    Category(39, "Modules"),
    Category(40, "Cables & Connectors"),
    Category(41, "Prototyping"),
    Category(42, "Kits"),
    Category(43, "Tools")
  ]

  /** `types`, written as four runs of nineteen entries. */
  const Types: seq<CompType> :=
    [
      CompType(1, "Resistor"),
      CompType(2, "Capacitor"),
      CompType(3, "Inductor"),
      CompType(4, "Diode"),
      CompType(5, "Transistor"),
      CompType(6, "Relay"),
      CompType(7, "Integrated Circuit"),
      CompType(8, "Microcontroller"),
      CompType(9, "Sensor"),
      CompType(10, "Switch"),
      CompType(11, "Connector"),
      CompType(12, "Battery"),
      CompType(13, "Fuse"),
      CompType(14, "Potentiometer"),
      CompType(15, "Transformer"),
      CompType(16, "Oscillator"),
      CompType(17, "Voltage Regulator"),
      CompType(18, "LED"),
      CompType(19, "Display")
    ]
    + [
      CompType(20, "Heatsink"),
      CompType(21, "Crystal"),
      CompType(22, "Module"),
      CompType(23, "Power Supply"),
      CompType(24, "Actuator"),
      CompType(25, "Filter"),
      CompType(26, "Amplifier"),
      CompType(27, "PCB Board"),
      CompType(28, "Wire"),
      CompType(29, "Fan"),
      CompType(30, "Choke"),
      CompType(31, "Rotary Encoder"),
      CompType(32, "Memory Module"),
      CompType(33, "Thermistor"),
      CompType(34, "Photodiode"),
      CompType(35, "Phototransistor"),
      CompType(36, "Optocoupler"),
      CompType(37, "Thyristor"),
      CompType(38, "Triac")
    ]
    + [
      CompType(39, "Zener Diode"),
      CompType(40, "Varistor"),
      CompType(41, "Bridge Rectifier"),
      CompType(42, "Logic Gate"),
      CompType(43, "Motor"),
      CompType(44, "Stepper Motor"),
      CompType(45, "Servo Motor"),
      CompType(46, "Piezoelectric Element"),
      CompType(47, "Buzzer"),
      CompType(48, "Current Transformer"),
      CompType(49, "Hall Effect Sensor"),
      CompType(50, "Proximity Sensor"),
      CompType(51, "Gas Sensor"),
      CompType(52, "Humidity Sensor"),
      CompType(53, "Pressure Sensor"),
      CompType(54, "Temperature Sensor"),
      CompType(55, "Accelerometer"),
      CompType(56, "Gyroscope"),
      CompType(57, "Magnetometer")
    ]
    + [
      CompType(58, "RFID Module"),
      CompType(59, "Bluetooth Module"),
      CompType(60, "Wi-Fi Module"),
      CompType(61, "GPS Module"),
      CompType(62, "NFC Module"),
      CompType(63, "Arduino"),
      CompType(64, "Raspberry Pi"),
      CompType(65, "ESP8266"),
      CompType(66, "ESP32"),
      CompType(67, "BeagleBone"),
      CompType(68, "STM32 Board"),
      CompType(69, "Development Board"),
      CompType(70, "Single-board Computer"),
      CompType(71, "Microcontroller Board"),
      CompType(72, "Display Module"),
      CompType(73, "Input Device"),
      CompType(74, "Cables & Connectors"),
      CompType(75, "Prototyping Tools"),
      CompType(76, "Measurement Tools")
    ]

  /** The tables' ids are 1, 2, ... in order, so each id is unique and
      finds its entry at position id - 1. */
  lemma TablesWellFormed()
    ensures Statuses == [Status(1, "Out of Stock"), Status(2, "In Stock")]
    ensures |Categories| == 43 && forall i :: 0 <= i < |Categories| ==> Categories[i].id == i + 1
    ensures |Types| == 76 && forall i :: 0 <= i < |Types| ==> Types[i].id == i + 1
  {
  }

  /** Distinct positions of a table hold distinct ids. */
  lemma TableIdsUnique(i: nat, j: nat)
    requires i < j < |Categories|
    ensures Categories[i].id != Categories[j].id
  {
    TablesWellFormed();
  }
}
