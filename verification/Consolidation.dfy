/** Merging exported traces that several files share
    (scripts/consolidate_trace_exports.py). */
module Consolidation {
  import opened Common

  // ------------------------------------------------------------------ what is read

  /** The identifying fields of a record, stripped; None for a field that is
      missing, not a string or blank. `digest` is the hash of its messages. */
  datatype Identity = Identity(curationId: Option<string>, sourceRunId: Option<string>, id: Option<string>, digest: string)

  /** One line of a file; `payload` is the record apart from its consolidation data. */
  datatype Content = Blank | NotJson | NoMessages | Line(identity: Identity, payload: string)

  datatype File = File(path: string, category: string, lines: seq<Content>)

  /** A line together with where it was read. */
  datatype Item = Item(path: string, category: string, number: nat, content: Content)

  function RecordKey(identity: Identity): string {
    if identity.curationId.Some? then "curation_id:" + identity.curationId.value
    else if identity.sourceRunId.Some? then "source_run_id:" + identity.sourceRunId.value
    else if identity.id.Some? then "id:" + identity.id.value
    else "messages_sha256:" + identity.digest
  }

  /** The field a record is known by, and its value. */
  function KnownBy(identity: Identity): (int, string) {
    if identity.curationId.Some? then (0, identity.curationId.value)
    else if identity.sourceRunId.Some? then (1, identity.sourceRunId.value)
    else if identity.id.Some? then (2, identity.id.value)
    else (3, identity.digest)
  }

  lemma PrefixCancels(prefix: string, a: string, b: string)
    requires prefix + a == prefix + b
    ensures a == b
  {
    assert a == (prefix + a)[|prefix|..];
    assert b == (prefix + b)[|prefix|..];
  }

  /** Records share a key exactly when the same field with the same value names
      both: a value of one field never stands in for another field. */
  lemma KeysCollideExactly(a: Identity, b: Identity)
    ensures RecordKey(a) == RecordKey(b) <==> KnownBy(a) == KnownBy(b)
  {
    assert RecordKey(a)[0] == "csim"[KnownBy(a).0] && RecordKey(b)[0] == "csim"[KnownBy(b).0];
    if RecordKey(a) == RecordKey(b) {
      match KnownBy(a).0
      case 0 => PrefixCancels("curation_id:", KnownBy(a).1, KnownBy(b).1);
      case 1 => PrefixCancels("source_run_id:", KnownBy(a).1, KnownBy(b).1);
      case 2 => PrefixCancels("id:", KnownBy(a).1, KnownBy(b).1);
      case _ => PrefixCancels("messages_sha256:", KnownBy(a).1, KnownBy(b).1);
    }
  }

  // ------------------------------------------------------------------ priorities

  function Preferred(category: string): nat {
    if category == "all-plus-deepseek" then 100
    else if category == "all-plus-docker-skillrunner" then 90
    else if category == "all-plus-multiturn" then 80
    else if category == "all-plus-gapfill" then 70
    else if category == "all" then 60
    else if category in {"code-glm", "docker-skillrunner-glm", "gapfill-glm", "multiturn-web-glm", "deepseek-opencode-policy"} then 50
    else if category == "combined" then 40
    else if category in {"glm", "kimi"} then 30
    else if category == "initial-five" then 20
    else 0
  }

  /** The categories in order of preference, those listed together being equal; any
      other category comes last. */
  const TIERS: seq<set<string>> :=
    [{"all-plus-deepseek"}, {"all-plus-docker-skillrunner"}, {"all-plus-multiturn"}, {"all-plus-gapfill"}, {"all"},
     {"code-glm", "docker-skillrunner-glm", "gapfill-glm", "multiturn-web-glm", "deepseek-opencode-policy"},
     {"combined"}, {"glm", "kimi"}, {"initial-five"}]

  ghost predicate InTier(category: string, i: nat) {
    i < |TIERS| && category in TIERS[i]
  }

  /** a is listed, and b is neither with it nor before it. */
  ghost predicate Earlier(a: string, b: string) {
    exists i :: InTier(a, i) && forall j :: j <= i ==> !InTier(b, j)
  }

  const SCORES: seq<nat> := [100, 90, 80, 70, 60, 50, 40, 30, 20]

  lemma TierScore(category: string, i: nat)
    requires InTier(category, i)
    ensures Preferred(category) == SCORES[i]
  {
  }

  lemma ScoreTier(category: string) returns (i: nat)
    requires Preferred(category) > 0
    ensures InTier(category, i)
  {
    i := if category in TIERS[0] then 0 else if category in TIERS[1] then 1 else if category in TIERS[2] then 2
         else if category in TIERS[3] then 3 else if category in TIERS[4] then 4 else if category in TIERS[5] then 5
         else if category in TIERS[6] then 6 else if category in TIERS[7] then 7 else 8;
  }

  /** The scores order the categories as listed. */
  lemma PriorityIsOrder(a: string, b: string)
    ensures Preferred(a) > Preferred(b) <==> Earlier(a, b)
  {
    if Preferred(a) > Preferred(b) {
      var i := ScoreTier(a);
      TierScore(a, i);
      forall j: nat | j <= i ensures !InTier(b, j) {
        if InTier(b, j) {
          TierScore(b, j);
        }
      }
      assert Earlier(a, b);
    } else if Earlier(a, b) {
      var i :| InTier(a, i) && forall j :: j <= i ==> !InTier(b, j);
      TierScore(a, i);
      var k := ScoreTier(b);
      TierScore(b, k);
    }
  }

  ghost function MaxPriority(categories: set<string>): (m: nat)
    ensures forall c :: c in categories ==> Preferred(c) <= m
    ensures m == 0 || exists c :: c in categories && Preferred(c) == m
  {
    if categories == {} then 0
    else
      var c :| c in categories;
      var rest := MaxPriority(categories - {c});
      if Preferred(c) > rest then Preferred(c) else rest
  }

  method SourcePriority(categories: set<string>) returns (m: nat)
    ensures m == MaxPriority(categories)
    ensures forall c :: c in categories ==> Preferred(c) <= m
    ensures if categories == {} then m == 0 else exists c :: c in categories && Preferred(c) == m
  {
    m := 0;
    var left := categories;
    while left != {}
      invariant left <= categories
      invariant forall c :: c in categories - left ==> Preferred(c) <= m
      invariant m == 0 || exists c :: c in categories && Preferred(c) == m
      decreases |left|
    {
      var c :| c in left;
      left := left - {c};
      if Preferred(c) > m {
        m := Preferred(c);
      }
    }
  }

  // ------------------------------------------------------------------ the fold

  datatype Record = Record(payload: string, sources: set<string>, categories: set<string>, duplicates: nat)

  datatype Fault = Fault(path: string, number: nat, parsed: bool)

  datatype Loaded = Loaded(records: map<string, Record>, counts: map<string, nat>, errors: seq<Fault>)

  ghost function Merge(existing: Option<Record>, incoming: Record): Record {
    if existing.None? then incoming
    else
      var kept := existing.value;
      var sources := kept.sources + incoming.sources;
      var winner := if MaxPriority(incoming.categories) > MaxPriority(kept.categories) then incoming else kept;
      Record(winner.payload, sources, kept.categories + incoming.categories, |sources|)
  }

  function Lookup<V>(m: map<string, V>, key: string): Option<V> {
    if key in m then Some(m[key]) else None
  }

  function CountOf(counts: map<string, nat>, path: string): nat {
    if path in counts then counts[path] else 0
  }

  ghost function Add(before: Loaded, item: Item): Loaded {
    if item.content.Blank? then before
    else
      var counted := before.(counts := before.counts[item.path := CountOf(before.counts, item.path) + 1]);
      if !item.content.Line? then counted.(errors := before.errors + [Fault(item.path, item.number, item.content.NoMessages?)])
      else
        var key := RecordKey(item.content.identity);
        var incoming := Record(item.content.payload, {item.path}, {item.category}, 1);
        counted.(records := before.records[key := Merge(Lookup(before.records, key), incoming)])
  }

  ghost function Load(items: seq<Item>): Loaded {
    if items == [] then Loaded(map[], map[], [])
    else Add(Load(items[..|items| - 1]), items[|items| - 1])
  }

  function ItemsOf(file: File, n: nat): seq<Item>
    requires n <= |file.lines|
  {
    seq(n, i requires 0 <= i < n => Item(file.path, file.category, i + 1, file.lines[i]))
  }

  function AllItems(files: seq<File>): seq<Item> {
    if files == [] then []
    else
      var last := files[|files| - 1];
      AllItems(files[..|files| - 1]) + ItemsOf(last, |last.lines|)
  }

  method MergeRecord(existing: Option<Record>, incoming: Record) returns (merged: Record)
    ensures merged == Merge(existing, incoming)
  {
    if existing.None? {
      return incoming;
    }
    var sources := existing.value.sources + incoming.sources;
    var categories := existing.value.categories + incoming.categories;
    var existingScore := SourcePriority(existing.value.categories);
    var incomingScore := SourcePriority(incoming.categories);
    var winner := if incomingScore > existingScore then incoming else existing.value;
    merged := winner.(sources := sources, categories := categories, duplicates := |sources|);
  }

  lemma LoadAdds(items: seq<Item>, item: Item)
    ensures Load(items + [item]) == Add(Load(items), item)
  {
    assert (items + [item])[..|items|] == items;
  }

  lemma LoadLine(before: seq<Item>, file: File, n: nat)
    requires n < |file.lines|
    ensures Load(before + ItemsOf(file, n + 1))
            == Add(Load(before + ItemsOf(file, n)), Item(file.path, file.category, n + 1, file.lines[n]))
  {
    var item := Item(file.path, file.category, n + 1, file.lines[n]);
    LoadAdds(before + ItemsOf(file, n), item);
    assert before + ItemsOf(file, n) + [item] == before + ItemsOf(file, n + 1);
  }

  method LoadRecords(files: seq<File>) returns (records: map<string, Record>, counts: map<string, nat>, errors: seq<Fault>)
    ensures Loaded(records, counts, errors) == Load(AllItems(files))
  {
    records, counts, errors := map[], map[], [];
    for f := 0 to |files|
      invariant Loaded(records, counts, errors) == Load(AllItems(files[..f]))
    {
      var file := files[f];
      ghost var before := AllItems(files[..f]);
      assert before + ItemsOf(file, 0) == before;
      for n := 0 to |file.lines|
        invariant Loaded(records, counts, errors) == Load(before + ItemsOf(file, n))
      {
        LoadLine(before, file, n);
        var content := file.lines[n];
        if content.Blank? {
          continue;
        }
        counts := counts[file.path := CountOf(counts, file.path) + 1];
        if !content.Line? {
          errors := errors + [Fault(file.path, n + 1, content.NoMessages?)];
          continue;
        }
        var key := RecordKey(content.identity);
        var merged := MergeRecord(Lookup(records, key), Record(content.payload, {file.path}, {file.category}, 1));
        records := records[key := merged];
      }
      assert files[..f + 1][..f] == files[..f];
    }
    assert files[..|files|] == files;
  }

  // ------------------------------------------------------------------ what the fold keeps

  predicate Has(item: Item, key: string) {
    item.content.Line? && RecordKey(item.content.identity) == key
  }

  function SourcesOf(items: seq<Item>, key: string): set<string> {
    set item | item in items && Has(item, key) :: item.path
  }

  function CategoriesOf(items: seq<Item>, key: string): set<string> {
    set item | item in items && Has(item, key) :: item.category
  }

  /** Item `k` is the first of those with the key whose category has the highest score. */
  ghost predicate FirstBest(items: seq<Item>, key: string, k: nat) {
    && k < |items| && Has(items[k], key)
    && forall j :: 0 <= j < |items| && Has(items[j], key) ==>
         if j < k then Preferred(items[j].category) < Preferred(items[k].category)
         else Preferred(items[j].category) <= Preferred(items[k].category)
  }

  /** Item `k` is the first of those with the key whose category is listed earliest. */
  ghost predicate FirstListed(items: seq<Item>, key: string, k: nat) {
    && k < |items| && Has(items[k], key)
    && forall j :: 0 <= j < |items| && Has(items[j], key) ==>
         if j < k then Earlier(items[k].category, items[j].category)
         else !Earlier(items[j].category, items[k].category)
  }

  lemma BestIsListedFirst(items: seq<Item>, key: string, k: nat)
    requires FirstBest(items, key, k)
    ensures FirstListed(items, key, k)
  {
    forall j | 0 <= j < |items| && Has(items[j], key)
      ensures if j < k then Earlier(items[k].category, items[j].category)
              else !Earlier(items[j].category, items[k].category)
    {
      PriorityIsOrder(items[k].category, items[j].category);
      PriorityIsOrder(items[j].category, items[k].category);
    }
  }

  /** Sources, categories and count are those of the lines with the key. */
  ghost predicate CountsExactly(items: seq<Item>, key: string, record: Record) {
    && record.sources == SourcesOf(items, key)
    && record.categories == CategoriesOf(items, key)
    && record.duplicates == |record.sources|
  }

  /** The payload is that of the first line with the highest priority. */
  ghost predicate KeepsBest(items: seq<Item>, key: string, record: Record) {
    exists k: nat :: FirstBest(items, key, k) && record.payload == items[k].content.payload
  }

  ghost predicate Faithful(items: seq<Item>, key: string, record: Record) {
    CountsExactly(items, key, record) && KeepsBest(items, key, record)
  }

  lemma {:induction false} SetsGrow(items: seq<Item>, item: Item, key: string)
    ensures SourcesOf(items + [item], key) == SourcesOf(items, key) + (if Has(item, key) then {item.path} else {})
    ensures CategoriesOf(items + [item], key) == CategoriesOf(items, key) + (if Has(item, key) then {item.category} else {})
  {
  }

  lemma BestPriority(items: seq<Item>, key: string, k: nat)
    requires FirstBest(items, key, k)
    ensures MaxPriority(CategoriesOf(items, key)) == Preferred(items[k].category)
  {
    assert items[k] in items;
    assert items[k].category in CategoriesOf(items, key);
  }

  lemma OtherKeyKeepsBest(items: seq<Item>, item: Item, key: string, k: nat)
    requires FirstBest(items, key, k) && !Has(item, key)
    ensures FirstBest(items + [item], key, k)
  {
  }

  lemma MergedBest(items: seq<Item>, item: Item, key: string, k: nat)
    requires FirstBest(items, key, k) && Has(item, key)
    ensures FirstBest(items + [item], key,
                      if Preferred(item.category) > Preferred(items[k].category) then |items| else k)
  {
  }

  lemma OtherKeyKeeps(items: seq<Item>, item: Item, key: string, record: Record)
    requires Faithful(items, key, record) && !Has(item, key)
    ensures Faithful(items + [item], key, record)
  {
    SetsGrow(items, item, key);
    var k: nat :| FirstBest(items, key, k) && record.payload == items[k].content.payload;
    assert (items + [item])[k] == items[k];
    OtherKeyKeepsBest(items, item, key, k);
  }

  lemma FirstRecord(items: seq<Item>, item: Item, key: string)
    requires Has(item, key) && forall other :: other in items ==> !Has(other, key)
    ensures Faithful(items + [item], key, Record(item.content.payload, {item.path}, {item.category}, 1))
  {
    SetsGrow(items, item, key);
    assert SourcesOf(items, key) == {} && CategoriesOf(items, key) == {};
    assert (items + [item])[|items|] == item;
    assert FirstBest(items + [item], key, |items|);
  }

  lemma MergedCounts(items: seq<Item>, item: Item, key: string, record: Record, incoming: Record)
    requires CountsExactly(items, key, record) && Has(item, key)
    requires incoming.sources == {item.path} && incoming.categories == {item.category}
    ensures CountsExactly(items + [item], key, Merge(Some(record), incoming))
  {
    SetsGrow(items, item, key);
  }

  lemma OnePriority(category: string)
    ensures MaxPriority({category}) == Preferred(category)
  {
    assert category in {category};
  }

  lemma MergedPayload(items: seq<Item>, item: Item, key: string, record: Record, incoming: Record)
    requires record.categories == CategoriesOf(items, key) && KeepsBest(items, key, record) && Has(item, key)
    requires incoming.categories == {item.category} && incoming.payload == item.content.payload
    ensures KeepsBest(items + [item], key, Merge(Some(record), incoming))
  {
    var k: nat :| FirstBest(items, key, k) && record.payload == items[k].content.payload;
    BestPriority(items, key, k);
    OnePriority(item.category);
    assert (items + [item])[k] == items[k] && (items + [item])[|items|] == item;
    MergedBest(items, item, key, k);
  }

  /** After any input, a key is kept exactly when some line has it; its sources and
      categories are exactly those of the lines that have it, the duplicate count is
      the number of source files, and the payload is that of the first line with the
      highest category priority. */
  lemma {:induction false} LoadedExactly(items: seq<Item>, key: string)
    ensures key in Load(items).records <==> exists item :: item in items && Has(item, key)
    ensures key in Load(items).records ==> Faithful(items, key, Load(items).records[key])
  {
    if items != [] {
      var before, item := items[..|items| - 1], items[|items| - 1];
      assert items == before + [item];
      LoadedExactly(before, key);
      if !Has(item, key) {
        if key in Load(before).records {
          OtherKeyKeeps(before, item, key, Load(before).records[key]);
        }
      } else if key in Load(before).records {
        var incoming := Record(item.content.payload, {item.path}, {item.category}, 1);
        MergedCounts(before, item, key, Load(before).records[key], incoming);
        MergedPayload(before, item, key, Load(before).records[key], incoming);
      } else {
        FirstRecord(before, item, key);
      }
    }
  }

  /** The payload kept is that of the first line whose category is listed earliest. */
  lemma KeepsFirstListed(items: seq<Item>, key: string)
    requires key in Load(items).records
    ensures exists k: nat :: FirstListed(items, key, k) && Load(items).records[key].payload == items[k].content.payload
  {
    LoadedExactly(items, key);
    var k: nat :| FirstBest(items, key, k) && Load(items).records[key].payload == items[k].content.payload;
    BestIsListedFirst(items, key, k);
  }

  /** Reading the same lines in another order changes neither the keys nor any
      key's sources, categories and duplicate count (nor, then, the best priority). */
  lemma OrderIrrelevant(items: seq<Item>, shuffled: seq<Item>, key: string)
    requires multiset(items) == multiset(shuffled)
    ensures key in Load(items).records <==> key in Load(shuffled).records
    ensures key in Load(items).records ==>
              var a, b := Load(items).records[key], Load(shuffled).records[key];
              a.sources == b.sources && a.categories == b.categories && a.duplicates == b.duplicates
  {
    assert forall item :: item in items <==> item in multiset(items);
    assert forall item :: item in shuffled <==> item in multiset(shuffled);
    LoadedExactly(items, key);
    LoadedExactly(shuffled, key);
    assert SourcesOf(items, key) == SourcesOf(shuffled, key);
    assert CategoriesOf(items, key) == CategoriesOf(shuffled, key);
  }

  // ------------------------------------------------------------------ every line is accounted for

  function LinesOf(items: seq<Item>, path: string): nat {
    if items == [] then 0
    else
      var last := items[|items| - 1];
      LinesOf(items[..|items| - 1], path) + (if last.path == path && last.content.Line? then 1 else 0)
  }

  function FaultsOf(errors: seq<Fault>, path: string): nat {
    if errors == [] then 0
    else FaultsOf(errors[..|errors| - 1], path) + (if errors[|errors| - 1].path == path then 1 else 0)
  }

  lemma AddCounts(before: Loaded, item: Item, path: string)
    ensures var counted := if item.path == path && !item.content.Blank? then 1 else 0;
            CountOf(Add(before, item).counts, path) == CountOf(before.counts, path) + counted
  {
  }

  lemma AddFaults(before: Loaded, item: Item, path: string)
    ensures var fault := if item.path == path && (item.content.NotJson? || item.content.NoMessages?) then 1 else 0;
            FaultsOf(Add(before, item).errors, path) == FaultsOf(before.errors, path) + fault
  {
    var fault := Fault(item.path, item.number, item.content.NoMessages?);
    assert (before.errors + [fault])[..|before.errors|] == before.errors;
  }

  /** A file's count is its merged lines plus its reported faults: nothing is dropped silently. */
  lemma {:induction false} EveryLineCounted(items: seq<Item>, path: string)
    ensures CountOf(Load(items).counts, path) == LinesOf(items, path) + FaultsOf(Load(items).errors, path)
  {
    if items != [] {
      var before, item := items[..|items| - 1], items[|items| - 1];
      EveryLineCounted(before, path);
      AddCounts(Load(before), item, path);
      AddFaults(Load(before), item, path);
    }
  }

  /** Lines that are read but hold no record. */
  predicate Faulty(item: Item) {
    item.content.NotJson? || item.content.NoMessages?
  }

  function FaultyOnes(items: seq<Item>): seq<Item> {
    if items == [] then []
    else
      var before, last := FaultyOnes(items[..|items| - 1]), items[|items| - 1];
      if Faulty(last) then before + [last] else before
  }

  /** Every faulty line is reported once and in order, with its file, its number and
      whether it parsed. */
  lemma {:induction false} FaultsExactly(items: seq<Item>)
    ensures var errors, faulty := Load(items).errors, FaultyOnes(items);
            && |errors| == |faulty|
            && forall i :: 0 <= i < |errors| ==>
                 && errors[i].path == faulty[i].path && errors[i].number == faulty[i].number
                 && (errors[i].parsed <==> faulty[i].content.NoMessages?)
  {
    if items != [] {
      FaultsExactly(items[..|items| - 1]);
    }
  }

  function Offset(files: seq<File>): nat {
    if files == [] then 0 else Offset(files[..|files| - 1]) + |files[|files| - 1].lines|
  }

  /** Line n of file f is read after all lines of the files before it and is known by
      the file's path and category and the number n + 1; nothing else is read. */
  lemma {:induction false} ItemsExactly(files: seq<File>, f: nat, n: nat)
    requires f < |files| && n < |files[f].lines|
    ensures |AllItems(files)| == Offset(files) && Offset(files[..f]) + n < |AllItems(files)|
    ensures AllItems(files)[Offset(files[..f]) + n] == Item(files[f].path, files[f].category, n + 1, files[f].lines[n])
    decreases |files|
  {
    var front := files[..|files| - 1];
    ItemsCounted(files);
    ItemsCounted(front);
    if f < |front| {
      assert files[..f] == front[..f];
      ItemsExactly(front, f, n);
    } else {
      assert files[..f] == front;
    }
  }

  lemma {:induction false} ItemsCounted(files: seq<File>)
    ensures |AllItems(files)| == Offset(files)
  {
    if files != [] {
      ItemsCounted(files[..|files| - 1]);
    }
  }
}
