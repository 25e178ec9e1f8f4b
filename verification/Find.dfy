/** The shell's built-in `find` (`findBuiltin`): parsing of predicates, their
    evaluation, and the directory walk that prunes early at -maxdepth. */
module Find {
  import opened Common

  datatype Cond =
    | Not(inner: Cond)
    | Name(pattern: string, fold: bool)
    | PathIs(pattern: string, fold: bool)
    | TypeIs(kind: string)
    | MaxDepth(limit: int)
    | MinDepth(least: int)
    | Size(cmp: Comparison, bytes: int)
    | Print

  datatype Comparison = Larger | Smaller | Exactly

  datatype Kind = Regular | Directory | Symlink | Other

  /** What the walk hands to a predicate; the size is unknown when `Info` fails. */
  datatype Entry = Entry(path: string, kind: Kind, size: Option<int>, depth: nat)

  /** Library functions: `filepath.Match` (None for a bad pattern),
      `strings.ToLower` and `filepath.Base`. */
  datatype Library = Library(
    globMatch: (string, string) -> Option<bool>,
    lower: string -> string,
    base: string -> string)

  // ------------------------------------------------------------------ numbers

  function DigitsValue(s: string): Option<nat> {
    if s == "" then None
    else if !('0' <= s[|s| - 1] <= '9') then None
    else if |s| == 1 then Some(DigitValue(s[0]))
    else
      var front := DigitsValue(s[..|s| - 1]);
      if front.None? then None else Some(10 * front.value + DigitValue(s[|s| - 1]))
  }

  /** `strconv.Atoi` on 64 bits. */
  function Atoi(s: string): Option<int> {
    if s == "" then None
    else
      var digits := DigitsValue(if s[0] == '+' || s[0] == '-' then s[1..] else s);
      if digits.None? then None
      else
        var n := if s[0] == '-' then -(digits.value as int) else digits.value;
        if -0x8000_0000_0000_0000 <= n < 0x8000_0000_0000_0000 then Some(n) else None
  }

  /** A product in 64-bit two's complement. */
  function Wrap64(n: int): int {
    (n + 0x8000_0000_0000_0000) % 0x1_0000_0000_0000_0000 - 0x8000_0000_0000_0000
  }

  /** A number with its unit, in bytes. */
  function SizeInBytes(s: string): Option<int>
    requires s != ""
  {
    var unit := s[|s| - 1];
    var scaled := unit in "ckMG";
    var mult := if unit == 'c' then 1 else if unit == 'k' then 1024 else if unit == 'M' then 1024 * 1024
                else if unit == 'G' then 1024 * 1024 * 1024 else 512;
    var n := Atoi(if scaled then s[..|s| - 1] else s);
    if n.None? then None else Some(Wrap64(n.value * mult))
  }

  function ParseFindSize(s: string): Option<(Comparison, int)> {
    if s == "" then None
    else
      var cmp := if s[0] == '+' then Larger else if s[0] == '-' then Smaller else Exactly;
      var rest := if cmp.Exactly? then s else s[1..];
      if rest == "" || SizeInBytes(rest).None? then None else Some((cmp, SizeInBytes(rest).value))
  }

  // ------------------------------------------------------------------ parsing

  const WITH_ARGUMENT: seq<string> :=
    ["-name", "-iname", "-path", "-ipath", "-type", "-maxdepth", "-mindepth", "-size"]

  predicate IsPrint(token: string) {
    token == "-print" || token == "-print0"
  }

  function OneArgument(token: string, argument: string): Option<Cond> {
    match token
    case "-name" => Some(Name(argument, false))
    case "-iname" => Some(Name(argument, true))
    case "-path" => Some(PathIs(argument, false))
    case "-ipath" => Some(PathIs(argument, true))
    case "-type" => Some(TypeIs(argument))
    case "-maxdepth" => var n := Atoi(argument); if n.None? then None else Some(MaxDepth(n.value))
    case "-mindepth" => var n := Atoi(argument); if n.None? then None else Some(MinDepth(n.value))
    case "-size" => var s := ParseFindSize(argument); if s.None? then None else Some(Size(s.value.0, s.value.1))
    case _ => None
  }

  /** `parseCond`: one condition from tokens[pos..] and the next position; None
      where the source reports an error. It always consumes a token. */
  function ParseCond(tokens: seq<string>, pos: nat): (r: Option<(Cond, nat)>)
    ensures r.Some? ==> pos < r.value.1 <= |tokens|
    decreases if pos <= |tokens| then |tokens| - pos else 0
  {
    if pos >= |tokens| then None
    else if tokens[pos] == "-not" || tokens[pos] == "!" then
      var inner := ParseCond(tokens, pos + 1);
      if inner.None? then None else Some((Not(inner.value.0), inner.value.1))
    else if tokens[pos] in WITH_ARGUMENT then
      if pos + 1 >= |tokens| then None
      else
        var cond := OneArgument(tokens[pos], tokens[pos + 1]);
        if cond.None? then None else Some((cond.value, pos + 2))
    else if IsPrint(tokens[pos]) then Some((Print, pos + 1))
    else None
  }

  /** The conditions of one AND-group. */
  function ParseGroup(tokens: seq<string>, pos: nat): Option<seq<Cond>>
    requires pos <= |tokens|
    decreases |tokens| - pos
  {
    if pos == |tokens| then Some([])
    else if IsPrint(tokens[pos]) then ParseGroup(tokens, pos + 1)
    else
      var cond := ParseCond(tokens, pos);
      if cond.None? then None
      else
        var rest := ParseGroup(tokens, cond.value.1);
        if rest.None? then None else Some([cond.value.0] + rest.value)
  }

  method ParseAndGroup(tokens: seq<string>) returns (conds: Option<seq<Cond>>)
    ensures conds == ParseGroup(tokens, 0)
  {
    var found: seq<Cond> := [];
    var pos := 0;
    BeforeNothing(ParseGroup(tokens, 0));
    while pos < |tokens|
      invariant pos <= |tokens|
      invariant ParseGroup(tokens, 0) == Before(found, ParseGroup(tokens, pos))
      decreases |tokens| - pos
    {
      if IsPrint(tokens[pos]) {
        pos := pos + 1;
        continue;
      }
      var cond := ParseCond(tokens, pos);
      if cond.None? {
        return None;
      }
      BeforeTwice(found, cond.value.0, ParseGroup(tokens, cond.value.1));
      found := found + [cond.value.0];
      pos := cond.value.1;
    }
    assert found + [] == found;
    return Some(found);
  }

  /** The OR-groups of a command line: the tokens between -o tokens, `current`
      being the ones already read of the first group. */
  function SplitOr(tokens: seq<string>, current: seq<string>): (groups: seq<seq<string>>)
    ensures groups != []
  {
    if tokens == [] then [current]
    else if tokens[0] == "-o" then [current] + SplitOr(tokens[1..], [])
    else SplitOr(tokens[1..], current + [tokens[0]])
  }

  function ParseGroups(groups: seq<seq<string>>): Option<seq<seq<Cond>>> {
    if groups == [] then Some([])
    else
      var first := ParseGroup(groups[0], 0);
      var rest := ParseGroups(groups[1..]);
      if first.None? || rest.None? then None else Some([first.value] + rest.value)
  }

  function ParseCommand(tokens: seq<string>): Option<seq<seq<Cond>>> {
    ParseGroups(SplitOr(tokens, []))
  }

  function After(found: seq<seq<Cond>>, rest: Option<seq<seq<Cond>>>): Option<seq<seq<Cond>>> {
    if rest.None? then None else Some(found + rest.value)
  }

  method ParseOrGroups(tokens: seq<string>) returns (groups: Option<seq<seq<Cond>>>)
    ensures groups == ParseCommand(tokens)
  {
    var found: seq<seq<Cond>> := [];
    var current: seq<string> := [];
    AfterNothing(ParseCommand(tokens));
    assert tokens[0..] == tokens;
    for i := 0 to |tokens|
      invariant ParseCommand(tokens) == After(found, ParseGroups(SplitOr(tokens[i..], current)))
    {
      assert tokens[i..][1..] == tokens[i + 1..];
      if tokens[i] == "-o" {
        var conds := ParseAndGroup(current);
        FirstGroup(found, current, SplitOr(tokens[i + 1..], []));
        if conds.None? {
          return None;
        }
        found := found + [conds.value];
        current := [];
      } else {
        current := current + [tokens[i]];
      }
    }
    var conds := ParseAndGroup(current);
    assert SplitOr([], current) == [current] + [];
    FirstGroup(found, current, []);
    if conds.None? {
      return None;
    }
    assert found + [conds.value] + [] == found + [conds.value];
    return Some(found + [conds.value]);
  }

  lemma AfterNothing(rest: Option<seq<seq<Cond>>>)
    ensures After([], rest) == rest
  {
    if rest.Some? {
      assert [] + rest.value == rest.value;
    }
  }

  lemma FirstGroup(found: seq<seq<Cond>>, current: seq<string>, more: seq<seq<string>>)
    ensures After(found, ParseGroups([current] + more))
            == if ParseGroup(current, 0).None? then None
               else After(found + [ParseGroup(current, 0).value], ParseGroups(more))
  {
    assert ([current] + more)[1..] == more;
    var first, rest := ParseGroup(current, 0), ParseGroups(more);
    if first.Some? && rest.Some? {
      assert found + ([first.value] + rest.value) == (found + [first.value]) + rest.value;
    }
  }

  lemma {:induction false} WithoutOr(tokens: seq<string>, current: seq<string>)
    requires "-o" !in tokens
    ensures SplitOr(tokens, current) == [current + tokens]
  {
    if tokens == [] {
      assert current + tokens == current;
    } else {
      WithoutOr(tokens[1..], current + [tokens[0]]);
      assert current + [tokens[0]] + tokens[1..] == current + tokens;
    }
  }

  lemma CommandWithoutOr(tokens: seq<string>)
    requires "-o" !in tokens
    ensures ParseCommand(tokens)
            == if ParseGroup(tokens, 0).None? then None else Some([ParseGroup(tokens, 0).value])
  {
    WithoutOr(tokens, []);
    assert [] + tokens == tokens && [tokens] + [] == [tokens];
    FirstGroup([], tokens, []);
    AfterNothing(ParseCommand(tokens));
    var conds := ParseGroup(tokens, 0);
    if conds.Some? {
      assert [] + [conds.value] + [] == [conds.value];
    }
  }

  function Before(found: seq<Cond>, rest: Option<seq<Cond>>): Option<seq<Cond>> {
    if rest.None? then None else Some(found + rest.value)
  }

  lemma BeforeNothing(rest: Option<seq<Cond>>)
    ensures Before([], rest) == rest
  {
    if rest.Some? {
      assert [] + rest.value == rest.value;
    }
  }

  lemma BeforeTwice(found: seq<Cond>, cond: Cond, rest: Option<seq<Cond>>)
    ensures Before(found, Before([cond], rest)) == Before(found + [cond], rest)
  {
    if rest.Some? {
      assert found + ([cond] + rest.value) == (found + [cond]) + rest.value;
    }
  }

  // ------------------------------------------------------------------ evaluation

  /** None where the source returns an error. */
  function Eval(lib: Library, cond: Cond, e: Entry): Option<bool> {
    match cond
    case Not(inner) => var v := Eval(lib, inner, e); if v.None? then None else Some(!v.value)
    case Name(pattern, fold) =>
      if fold then lib.globMatch(lib.lower(pattern), lib.lower(lib.base(e.path)))
      else lib.globMatch(pattern, lib.base(e.path))
    case PathIs(pattern, fold) =>
      var pat := if fold then lib.lower(pattern) else pattern;
      var path := if fold then lib.lower(e.path) else e.path;
      var plain := lib.globMatch(pat, path);
      if plain == Some(false) then lib.globMatch(pat, "./" + path) else plain
    case TypeIs(kind) =>
      if kind == "f" then Some(e.kind == Regular)
      else if kind == "d" then Some(e.kind == Directory)
      else if kind == "l" then Some(e.kind == Symlink)
      else None
    case MaxDepth(n) => Some(e.depth <= n)
    case MinDepth(n) => Some(e.depth >= n)
    case Size(cmp, bytes) =>
      if e.size.None? then Some(false)
      else if cmp.Larger? then Some(e.size.value > bytes)
      else if cmp.Smaller? then Some(e.size.value < bytes)
      else Some(e.size.value == bytes)
    case Print => Some(true)
  }

  /** All conditions in turn, stopping at the first that fails or errs. */
  function AllHold(lib: Library, conds: seq<Cond>, e: Entry): Option<bool> {
    if conds == [] then Some(true)
    else
      var first := Eval(lib, conds[0], e);
      if first == Some(true) then AllHold(lib, conds[1..], e) else first
  }

  function AnyHolds(lib: Library, groups: seq<seq<Cond>>, e: Entry): Option<bool> {
    if groups == [] then Some(false)
    else
      var first := AllHold(lib, groups[0], e);
      if first == Some(false) then AnyHolds(lib, groups[1..], e) else first
  }

  method MatchEntry(lib: Library, groups: seq<seq<Cond>>, e: Entry) returns (ok: Option<bool>)
    ensures ok == AnyHolds(lib, groups, e)
  {
    for g := 0 to |groups|
      invariant AnyHolds(lib, groups, e) == AnyHolds(lib, groups[g..], e)
    {
      var group := groups[g];
      var all := true;
      var c := 0;
      while c < |group|
        invariant 0 <= c <= |group|
        invariant all ==> AllHold(lib, group, e) == AllHold(lib, group[c..], e)
        invariant !all ==> AllHold(lib, group, e) == Some(false)
      {
        var v := Eval(lib, group[c], e);
        assert group[c..][1..] == group[c + 1..];
        if v.None? {
          return None;
        }
        if !v.value {
          all := false;
          break;
        }
        c := c + 1;
      }
      assert groups[g..][1..] == groups[g + 1..];
      if all {
        return Some(true);
      }
    }
    return Some(false);
  }

  // ------------------------------------------------------------------ the depth limit

  /** One step of the scan: the minimum, with any negative value as "none". */
  function Tighten(limit: int, n: int): int {
    if limit < 0 || n < limit then n else limit
  }

  function LimitOf(depths: seq<int>): int {
    if depths == [] then -1 else Tighten(LimitOf(depths[..|depths| - 1]), depths[|depths| - 1])
  }

  /** The numbers that follow a -maxdepth token, wherever it stands. */
  function ScannedDepths(tokens: seq<string>, upTo: nat): seq<int>
    requires upTo <= |tokens|
  {
    if upTo == 0 then []
    else
      var before := ScannedDepths(tokens, upTo - 1);
      if tokens[upTo - 1] == "-maxdepth" && upTo < |tokens| && Atoi(tokens[upTo]).Some?
      then before + [Atoi(tokens[upTo]).value] else before
  }

  /** The limit the walk prunes at; negative for none. */
  function ScannedLimit(tokens: seq<string>): int {
    LimitOf(ScannedDepths(tokens, |tokens|))
  }

  method MaxDepthLimit(tokens: seq<string>) returns (limit: int)
    ensures limit == ScannedLimit(tokens)
  {
    limit := -1;
    var ti := 0;
    while ti + 1 < |tokens|
      invariant 0 <= ti <= |tokens|
      invariant |tokens| > 0 ==> ti < |tokens|
      invariant limit == LimitOf(ScannedDepths(tokens, ti))
    {
      if tokens[ti] == "-maxdepth" {
        var n := Atoi(tokens[ti + 1]);
        if n.Some? {
          var before := ScannedDepths(tokens, ti);
          assert (before + [n.value])[..|before|] == before;
          if limit < 0 || n.value < limit {
            limit := n.value;
          }
        }
      }
      ti := ti + 1;
    }
  }

  /** All depth limits in a condition, negated ones included. */
  function DepthsIn(cond: Cond): seq<int> {
    match cond
    case Not(inner) => DepthsIn(inner)
    case MaxDepth(n) => [n]
    case _ => []
  }

  function DepthsInAll(conds: seq<Cond>): seq<int> {
    if conds == [] then [] else DepthsIn(conds[0]) + DepthsInAll(conds[1..])
  }

  predicate IsKeyword(token: string) {
    token == "-not" || token == "!" || token in WITH_ARGUMENT || IsPrint(token)
  }

  lemma {:induction false} NonDigitHead(s: string)
    requires s != "" && !('0' <= s[0] <= '9')
    ensures DigitsValue(s).None?
  {
    if |s| > 1 {
      NonDigitHead(s[..|s| - 1]);
    }
  }

  /** No keyword reads as a number, so the scan sees only real depth limits. */
  lemma KeywordsAreNoNumbers(token: string)
    requires IsKeyword(token)
    ensures Atoi(token).None?
  {
    if token == "!" {
      NonDigitHead(token);
    } else {
      assert token[0] == '-' && |token| > 1 && 'a' <= token[1] <= 'z';
      NonDigitHead(token[1..]);
    }
  }

  /** What the scan sees from position pos on. */
  function ScannedFrom(tokens: seq<string>, pos: nat): seq<int>
    requires pos <= |tokens|
    decreases |tokens| - pos
  {
    if pos == |tokens| then []
    else ScannedAt(tokens, pos) + ScannedFrom(tokens, pos + 1)
  }

  lemma {:induction false} ScannedBothWays(tokens: seq<string>, pos: nat)
    requires pos <= |tokens|
    ensures ScannedDepths(tokens, pos) + ScannedFrom(tokens, pos) == ScannedDepths(tokens, |tokens|)
    decreases |tokens| - pos
  {
    if pos < |tokens| {
      ScannedBothWays(tokens, pos + 1);
    }
  }

  /** What the scan adds at one position. */
  function ScannedAt(tokens: seq<string>, pos: nat): seq<int>
    requires pos < |tokens|
  {
    if tokens[pos] == "-maxdepth" && pos + 1 < |tokens| && Atoi(tokens[pos + 1]).Some?
    then [Atoi(tokens[pos + 1]).value] else []
  }

  /** A predicate with an argument shows the scan its own limit and nothing else. */
  lemma ArgumentScanned(tokens: seq<string>, pos: nat)
    requires pos + 1 < |tokens| && tokens[pos] in WITH_ARGUMENT && OneArgument(tokens[pos], tokens[pos + 1]).Some?
    requires pos + 2 < |tokens| ==> Atoi(tokens[pos + 2]).None?
    ensures ScannedAt(tokens, pos) == DepthsIn(OneArgument(tokens[pos], tokens[pos + 1]).value)
    ensures ScannedAt(tokens, pos + 1) == []
  {
  }

  /** A parsed condition shows the scan exactly its own depth limits, provided
      what follows it is not a number. */
  lemma {:induction false} CondScanned(tokens: seq<string>, pos: nat)
    requires ParseCond(tokens, pos).Some?
    requires ParseCond(tokens, pos).value.1 < |tokens| ==> Atoi(tokens[ParseCond(tokens, pos).value.1]).None?
    ensures ScannedFrom(tokens, pos)
            == DepthsIn(ParseCond(tokens, pos).value.0) + ScannedFrom(tokens, ParseCond(tokens, pos).value.1)
    decreases |tokens| - pos
  {
    if tokens[pos] == "-not" || tokens[pos] == "!" {
      assert ScannedAt(tokens, pos) == [];
      CondScanned(tokens, pos + 1);
    } else if tokens[pos] in WITH_ARGUMENT {
      ArgumentScanned(tokens, pos);
      assert ScannedFrom(tokens, pos + 1) == ScannedFrom(tokens, pos + 2);
    } else {
      assert ScannedAt(tokens, pos) == [];
    }
  }

  /** In a group that parses, the scan finds exactly the depth limits of the
      parsed conditions, in order. */
  lemma {:induction false} GroupScanned(tokens: seq<string>, pos: nat)
    requires pos <= |tokens| && ParseGroup(tokens, pos).Some?
    ensures ScannedFrom(tokens, pos) == DepthsInAll(ParseGroup(tokens, pos).value)
    ensures pos < |tokens| ==> Atoi(tokens[pos]).None?
    decreases |tokens| - pos
  {
    if pos < |tokens| {
      if IsPrint(tokens[pos]) {
        KeywordsAreNoNumbers(tokens[pos]);
        GroupScanned(tokens, pos + 1);
      } else {
        var cond := ParseCond(tokens, pos).value;
        KeywordsAreNoNumbers(tokens[pos]);
        GroupScanned(tokens, cond.1);
        CondScanned(tokens, pos);
      }
    }
  }

  lemma {:induction false} LimitIsOneOf(depths: seq<int>)
    ensures LimitOf(depths) >= 0 ==> LimitOf(depths) in depths
  {
    if depths != [] {
      LimitIsOneOf(depths[..|depths| - 1]);
    }
  }

  // ------------------------------------------------------------------ the walk

  /** A file-system tree: only directories have children. */
  datatype Node = Node(name: string, kind: Kind, size: Option<int>, children: seq<Node>)

  /** `filepath.Join` of a display path and a name. */
  function JoinPath(path: string, name: string): string {
    if path == "." then name else if path == "/" then "/" + name else path + "/" + name
  }

  function EntryOf(n: Node, path: string, depth: nat): Entry {
    Entry(path, n.kind, n.size, depth)
  }

  /** Every entry of the tree in the order a walk visits it. */
  function FullWalk(n: Node, path: string, depth: nat): seq<Entry>
    decreases n, 1
  {
    [EntryOf(n, path, depth)] + (if n.kind == Directory then FullWalks(n.children, path, depth + 1) else [])
  }

  function FullWalks(ns: seq<Node>, path: string, depth: nat): seq<Entry>
    decreases ns, 0
  {
    if ns == [] then []
    else FullWalk(ns[0], JoinPath(path, ns[0].name), depth) + FullWalks(ns[1..], path, depth)
  }

  function Separators(s: string): nat {
    if s == "" then 0 else Separators(s[..|s| - 1]) + (if s[|s| - 1] == '/' then 1 else 0)
  }

  lemma {:induction false} SeparatorsJoin(a: string, b: string)
    ensures Separators(a + b) == Separators(a) + Separators(b)
  {
    if b == "" {
      assert a + b == a;
    } else {
      assert (a + b)[..|a + b| - 1] == a + b[..|b| - 1];
      SeparatorsJoin(a, b[..|b| - 1]);
    }
  }

  lemma {:induction false} PlainHasNone(s: string)
    requires '/' !in s
    ensures Separators(s) == 0
  {
    if s != "" {
      PlainHasNone(s[..|s| - 1]);
    }
  }

  /** Names as a file system has them. */
  predicate IsName(name: string) {
    name != "" && name != "." && '/' !in name
  }

  predicate Named(n: Node) {
    forall c :: c in n.children ==> IsName(c.name) && Named(c)
  }

  /** The entry lies `depth` deep below the start, by the separators of its relative path. */
  ghost predicate LiesAt(start: string, depth: nat, e: Entry) {
    || (e.path == start && e.depth == depth)
    || exists rel :: Relative(start, rel, e) && e.depth == depth + Separators(rel) + 1
  }

  ghost predicate Relative(start: string, rel: string, e: Entry) {
    rel != "" && e.path == JoinPath(start, rel)
  }

  lemma {:induction false} OneMoreSeparator(name: string, rel: string)
    requires '/' !in name
    ensures Separators(name + "/" + rel) == Separators(rel) + 1
  {
    PlainHasNone(name);
    SeparatorsJoin(name + "/", rel);
    assert (name + "/")[..|name|] == name;
  }

  lemma {:induction false} JoinTwice(start: string, name: string, rel: string)
    requires IsName(name)
    ensures JoinPath(JoinPath(start, name), rel) == JoinPath(start, name + "/" + rel)
  {
    if start == "." {
      assert name[0] != '/';
    } else if start == "/" {
      assert "/" + name + "/" + rel == "/" + (name + "/" + rel);
      assert |"/" + name| > 1;
    } else {
      assert start + "/" + name + "/" + rel == start + "/" + (name + "/" + rel);
      assert (start + "/" + name)[|start|] == '/' && |start + "/" + name| > 1;
    }
  }

  lemma LiesDeeper(start: string, name: string, depth: nat, e: Entry)
    requires IsName(name) && LiesAt(JoinPath(start, name), depth + 1, e)
    ensures LiesAt(start, depth, e)
  {
    var below := JoinPath(start, name);
    if e.path == below && e.depth == depth + 1 {
      PlainHasNone(name);
      assert Relative(start, name, e);
    } else {
      var rel :| Relative(below, rel, e) && e.depth == depth + 1 + Separators(rel) + 1;
      JoinTwice(start, name, rel);
      OneMoreSeparator(name, rel);
      assert Relative(start, name + "/" + rel, e);
    }
  }

  /** Every entry's depth is one more than the number of separators in its path
      relative to the start. */
  lemma {:induction false} DepthCountsSeparators(n: Node, path: string, depth: nat)
    requires Named(n)
    ensures forall e :: e in FullWalk(n, path, depth) ==> LiesAt(path, depth, e)
    decreases n, 1
  {
    if n.kind == Directory {
      DepthsBelow(n.children, path, depth);
    }
  }

  lemma {:induction false} DepthsBelow(ns: seq<Node>, path: string, depth: nat)
    requires forall n :: n in ns ==> IsName(n.name) && Named(n)
    ensures forall e :: e in FullWalks(ns, path, depth + 1) ==> LiesAt(path, depth, e)
    decreases ns, 0
  {
    if ns != [] {
      var below := JoinPath(path, ns[0].name);
      DepthCountsSeparators(ns[0], below, depth + 1);
      DepthsBelow(ns[1..], path, depth);
      forall e | e in FullWalk(ns[0], below, depth + 1) ensures LiesAt(path, depth, e) {
        LiesDeeper(path, ns[0].name, depth, e);
      }
    }
  }

  /** A path as cleaning leaves it: no doubled or trailing separator, no "./" in front. */
  predicate Tidy(path: string) {
    && path != "" && (path == "/" || path[|path| - 1] != '/')
    && (forall i {:trigger path[i]} :: 0 <= i < |path| - 1 && path[i] == '/' ==> path[i + 1] != '/')
    && (|path| >= 2 && path[0] == '.' ==> path[1] != '/')
  }

  lemma {:induction false} JoinIsTidy(path: string, name: string)
    requires Tidy(path) && IsName(name)
    ensures Tidy(JoinPath(path, name))
  {
    forall i | 0 <= i < |name| ensures name[i] != '/' {
      assert name[i] in name;
    }
    if path != "." && path != "/" {
      LongerIsTidy(path, name);
    }
  }

  lemma {:induction false} LongerIsTidy(path: string, name: string)
    requires Tidy(path) && path != "." && path != "/" && name != "" && forall i :: 0 <= i < |name| ==> name[i] != '/'
    ensures Tidy(path + "/" + name)
  {
    var joined := path + "/" + name;
    assert joined[|joined| - 1] == name[|name| - 1] && joined[0] == path[0];
    if |path| == 1 {
      assert path == [path[0]];
    } else {
      assert joined[1] == path[1];
    }
  }

  /** From a tidy start the walk shows tidy paths only. */
  lemma {:induction false} PathsStayTidy(n: Node, path: string, depth: nat)
    requires Named(n) && Tidy(path)
    ensures forall e :: e in FullWalk(n, path, depth) ==> Tidy(e.path)
    decreases n, 1
  {
    if n.kind == Directory {
      PathsBelowTidy(n.children, path, depth + 1);
    }
  }

  lemma {:induction false} PathsBelowTidy(ns: seq<Node>, path: string, depth: nat)
    requires (forall n :: n in ns ==> IsName(n.name) && Named(n)) && Tidy(path)
    ensures forall e :: e in FullWalks(ns, path, depth) ==> Tidy(e.path)
    decreases ns, 0
  {
    if ns != [] {
      JoinIsTidy(path, ns[0].name);
      PathsStayTidy(ns[0], JoinPath(path, ns[0].name), depth);
      PathsBelowTidy(ns[1..], path, depth);
    }
  }

  /** The paths of the entries that match, an error counting as no match. */
  function Selected(lib: Library, groups: seq<seq<Cond>>, entries: seq<Entry>): seq<string> {
    if entries == [] then []
    else
      var rest := Selected(lib, groups, entries[1..]);
      if AnyHolds(lib, groups, entries[0]) == Some(true) then [entries[0].path] + rest else rest
  }

  predicate Descends(lib: Library, groups: seq<seq<Cond>>, limit: int, n: Node, path: string, depth: nat) {
    && n.kind == Directory
    && (AnyHolds(lib, groups, EntryOf(n, path, depth)).None? || limit < 0 || depth < limit)
  }

  /** What the walk prints, skipping directories at the depth limit. An entry
      whose predicates err is reported and never pruned. */
  method Walk(lib: Library, groups: seq<seq<Cond>>, limit: int, n: Node, path: string, depth: nat)
    returns (out: seq<string>)
    ensures out == PrunedWalk(lib, groups, limit, n, path, depth)
    decreases n, 1
  {
    out := [];
    var ok := MatchEntry(lib, groups, EntryOf(n, path, depth));
    if ok == Some(true) {
      out := out + [path];
    }
    if ok.Some? && n.kind == Directory && limit >= 0 && depth >= limit {
      return;
    }
    if n.kind == Directory {
      var below := WalkAll(lib, groups, limit, n.children, path, depth + 1);
      out := out + below;
    }
  }

  /** The children of one directory in turn. */
  method WalkAll(lib: Library, groups: seq<seq<Cond>>, limit: int, ns: seq<Node>, path: string, depth: nat)
    returns (out: seq<string>)
    ensures out == PrunedWalks(lib, groups, limit, ns, path, depth)
    decreases ns, 0
  {
    out := [];
    for i := 0 to |ns|
      invariant out + PrunedWalks(lib, groups, limit, ns[i..], path, depth)
                == PrunedWalks(lib, groups, limit, ns, path, depth)
    {
      var child := Walk(lib, groups, limit, ns[i], JoinPath(path, ns[i].name), depth);
      FirstPruned(lib, groups, limit, ns, i, path, depth);
      PrintedInTurn(out, child, PrunedWalks(lib, groups, limit, ns[i + 1..], path, depth));
      out := out + child;
    }
  }

  function PrunedWalk(lib: Library, groups: seq<seq<Cond>>, limit: int, n: Node, path: string, depth: nat): seq<string>
    decreases n, 1
  {
    (if AnyHolds(lib, groups, EntryOf(n, path, depth)) == Some(true) then [path] else []) +
    (if Descends(lib, groups, limit, n, path, depth)
     then PrunedWalks(lib, groups, limit, n.children, path, depth + 1) else [])
  }

  function PrunedWalks(lib: Library, groups: seq<seq<Cond>>, limit: int, ns: seq<Node>, path: string, depth: nat)
    : seq<string>
    decreases ns, 0
  {
    if ns == [] then []
    else PrunedWalk(lib, groups, limit, ns[0], JoinPath(path, ns[0].name), depth)
         + PrunedWalks(lib, groups, limit, ns[1..], path, depth)
  }

  lemma PrintedInTurn(a: seq<string>, b: seq<string>, c: seq<string>)
    ensures a + (b + c) == (a + b) + c
  {
  }

  lemma FirstPruned(lib: Library, groups: seq<seq<Cond>>, limit: int, ns: seq<Node>, i: nat, path: string, depth: nat)
    requires i < |ns|
    ensures PrunedWalks(lib, groups, limit, ns[i..], path, depth)
            == PrunedWalk(lib, groups, limit, ns[i], JoinPath(path, ns[i].name), depth)
               + PrunedWalks(lib, groups, limit, ns[i + 1..], path, depth)
  {
    assert ns[i..][1..] == ns[i + 1..];
  }

  lemma {:induction false} SelectedConcat(lib: Library, groups: seq<seq<Cond>>, a: seq<Entry>, b: seq<Entry>)
    ensures Selected(lib, groups, a + b) == Selected(lib, groups, a) + Selected(lib, groups, b)
  {
    if a == [] {
      assert a + b == b;
    } else {
      SelectedConcat(lib, groups, a[1..], b);
      assert (a + b)[1..] == a[1..] + b;
    }
  }

  /** The group says, un-negated, that the depth is at most the limit. */
  ghost predicate Limits(conds: seq<Cond>, limit: int) {
    exists c :: 0 <= c < |conds| && conds[c].MaxDepth? && conds[c].limit <= limit
  }

  ghost predicate EveryGroupLimits(groups: seq<seq<Cond>>, limit: int) {
    forall g :: 0 <= g < |groups| ==> Limits(groups[g], limit)
  }

  lemma {:induction false} NotAllHold(lib: Library, conds: seq<Cond>, e: Entry, c: nat)
    requires c < |conds| && conds[c].MaxDepth? && e.depth > conds[c].limit
    ensures AllHold(lib, conds, e) != Some(true)
  {
    if c > 0 {
      NotAllHold(lib, conds[1..], e, c - 1);
    }
  }

  lemma {:induction false} TooDeepNeverMatches(lib: Library, groups: seq<seq<Cond>>, limit: int, e: Entry)
    requires EveryGroupLimits(groups, limit) && e.depth > limit
    ensures AnyHolds(lib, groups, e) != Some(true)
  {
    if groups != [] {
      assert Limits(groups[0], limit);
      var c :| 0 <= c < |groups[0]| && groups[0][c].MaxDepth? && groups[0][c].limit <= limit;
      NotAllHold(lib, groups[0], e, c);
      assert EveryGroupLimits(groups[1..], limit);
      TooDeepNeverMatches(lib, groups[1..], limit, e);
    }
  }

  /** No entry deeper than the limit can match. */
  ghost predicate NoDeepMatch(lib: Library, groups: seq<seq<Cond>>, limit: int) {
    forall e: Entry :: e.depth > limit ==> AnyHolds(lib, groups, e) != Some(true)
  }

  lemma LimitedGroupsMatchNothingDeep(lib: Library, groups: seq<seq<Cond>>, limit: int)
    requires EveryGroupLimits(groups, limit)
    ensures NoDeepMatch(lib, groups, limit)
  {
    forall e: Entry | e.depth > limit ensures AnyHolds(lib, groups, e) != Some(true) {
      TooDeepNeverMatches(lib, groups, limit, e);
    }
  }

  lemma {:induction false} NothingBelow(lib: Library, groups: seq<seq<Cond>>, limit: int, n: Node, path: string, depth: nat)
    requires NoDeepMatch(lib, groups, limit) && depth > limit
    ensures Selected(lib, groups, FullWalk(n, path, depth)) == []
    decreases n, 1
  {
    var e := EntryOf(n, path, depth);
    var below := if n.kind == Directory then FullWalks(n.children, path, depth + 1) else [];
    assert FullWalk(n, path, depth) == [e] + below;
    assert ([e] + below)[1..] == below;
    if n.kind == Directory {
      NothingBelowAll(lib, groups, limit, n.children, path, depth + 1);
    }
  }

  lemma {:induction false} NothingBelowAll(lib: Library, groups: seq<seq<Cond>>, limit: int, ns: seq<Node>, path: string,
                                           depth: nat)
    requires NoDeepMatch(lib, groups, limit) && depth > limit
    ensures Selected(lib, groups, FullWalks(ns, path, depth)) == []
    decreases ns, 0
  {
    if ns != [] {
      NothingBelow(lib, groups, limit, ns[0], JoinPath(path, ns[0].name), depth);
      NothingBelowAll(lib, groups, limit, ns[1..], path, depth);
      SelectedConcat(lib, groups, FullWalk(ns[0], JoinPath(path, ns[0].name), depth), FullWalks(ns[1..], path, depth));
    }
  }

  /** Early pruning prints what the full walk would, for every tree, when
      nothing below the limit can match, or there is no limit. */
  lemma {:induction false} PruningIsExact(lib: Library, groups: seq<seq<Cond>>, limit: int, n: Node, path: string,
                                          depth: nat)
    requires limit >= 0 ==> NoDeepMatch(lib, groups, limit)
    ensures PrunedWalk(lib, groups, limit, n, path, depth) == Selected(lib, groups, FullWalk(n, path, depth))
    decreases n, 1
  {
    var e := EntryOf(n, path, depth);
    var below := if n.kind == Directory then FullWalks(n.children, path, depth + 1) else [];
    assert FullWalk(n, path, depth) == [e] + below;
    assert ([e] + below)[1..] == below;
    if n.kind == Directory {
      if Descends(lib, groups, limit, n, path, depth) {
        PruningIsExactAll(lib, groups, limit, n.children, path, depth + 1);
      } else {
        NothingBelowAll(lib, groups, limit, n.children, path, depth + 1);
      }
    }
  }

  lemma {:induction false} PruningIsExactAll(lib: Library, groups: seq<seq<Cond>>, limit: int, ns: seq<Node>,
                                             path: string, depth: nat)
    requires limit >= 0 ==> NoDeepMatch(lib, groups, limit)
    ensures PrunedWalks(lib, groups, limit, ns, path, depth) == Selected(lib, groups, FullWalks(ns, path, depth))
    decreases ns, 0
  {
    if ns != [] {
      PruningIsExact(lib, groups, limit, ns[0], JoinPath(path, ns[0].name), depth);
      PruningIsExactAll(lib, groups, limit, ns[1..], path, depth);
      SelectedConcat(lib, groups, FullWalk(ns[0], JoinPath(path, ns[0].name), depth), FullWalks(ns[1..], path, depth));
    }
  }

  // ------------------------------------------------------------------ the command line

  ghost predicate NoNegatedLimit(conds: seq<Cond>) {
    forall c :: 0 <= c < |conds| && conds[c].Not? ==> DepthsIn(conds[c]) == []
  }

  lemma {:induction false} DepthHasCondition(conds: seq<Cond>, n: int)
    requires NoNegatedLimit(conds) && n in DepthsInAll(conds)
    ensures exists c :: 0 <= c < |conds| && conds[c] == MaxDepth(n)
  {
    if n in DepthsIn(conds[0]) {
      assert conds[0] == MaxDepth(n);
    } else {
      DepthHasCondition(conds[1..], n);
      var c :| 0 <= c < |conds[1..]| && conds[1..][c] == MaxDepth(n);
      assert conds[c + 1] == MaxDepth(n);
    }
  }

  lemma LimitIsCarried(tokens: seq<string>)
    requires ParseGroup(tokens, 0).Some? && NoNegatedLimit(ParseGroup(tokens, 0).value)
    ensures var limit := ScannedLimit(tokens);
            limit >= 0 ==> Limits(ParseGroup(tokens, 0).value, limit)
  {
    var conds := ParseGroup(tokens, 0).value;
    var limit := ScannedLimit(tokens);
    GroupScanned(tokens, 0);
    ScannedBothWays(tokens, 0);
    assert ScannedDepths(tokens, |tokens|) == DepthsInAll(conds);
    if limit >= 0 {
      LimitIsOneOf(DepthsInAll(conds));
      DepthHasCondition(conds, limit);
    }
  }

  /** A command line with one AND-group and no negated -maxdepth: whatever the
      tree, pruning at the scanned limit changes nothing that is printed. */
  lemma OneGroupPrunesExactly(lib: Library, tokens: seq<string>, n: Node, path: string)
    requires "-o" !in tokens && ParseCommand(tokens).Some?
    requires forall g :: g in ParseCommand(tokens).value ==> NoNegatedLimit(g)
    ensures var groups := ParseCommand(tokens).value;
            PrunedWalk(lib, groups, ScannedLimit(tokens), n, path, 0)
            == Selected(lib, groups, FullWalk(n, path, 0))
  {
    var groups := ParseCommand(tokens).value;
    var limit := ScannedLimit(tokens);
    CommandWithoutOr(tokens);
    assert groups[0] in groups;
    LimitIsCarried(tokens);
    if limit >= 0 {
      LimitedGroupsMatchNothingDeep(lib, groups, limit);
    }
    PruningIsExact(lib, groups, limit, n, path, 0);
  }

  // ------------------------------------------------------------------ what pruning loses

  /** The matches under directories the walk does not descend into. */
  function Lost(lib: Library, groups: seq<seq<Cond>>, limit: int, n: Node, path: string, depth: nat): seq<string>
    decreases n, 1
  {
    if n.kind != Directory then []
    else if Descends(lib, groups, limit, n, path, depth) then LostIn(lib, groups, limit, n.children, path, depth + 1)
    else Selected(lib, groups, FullWalks(n.children, path, depth + 1))
  }

  function LostIn(lib: Library, groups: seq<seq<Cond>>, limit: int, ns: seq<Node>, path: string, depth: nat): seq<string>
    decreases ns, 0
  {
    if ns == [] then []
    else Lost(lib, groups, limit, ns[0], JoinPath(path, ns[0].name), depth)
         + LostIn(lib, groups, limit, ns[1..], path, depth)
  }

  /** What two walks print against what the second one loses. */
  ghost predicate Accounts(all: seq<string>, printed: seq<string>, lost: seq<string>) {
    && multiset(all) == multiset(printed) + multiset(lost)
    && (lost == [] ==> printed == all)
  }

  lemma AccountsConcat(all0: seq<string>, printed0: seq<string>, lost0: seq<string>,
                       all1: seq<string>, printed1: seq<string>, lost1: seq<string>)
    requires Accounts(all0, printed0, lost0) && Accounts(all1, printed1, lost1)
    ensures Accounts(all0 + all1, printed0 + printed1, lost0 + lost1)
  {
  }

  function Own(lib: Library, groups: seq<seq<Cond>>, e: Entry): seq<string> {
    if AnyHolds(lib, groups, e) == Some(true) then [e.path] else []
  }

  function Under(n: Node, path: string, depth: nat): seq<Entry> {
    if n.kind == Directory then FullWalks(n.children, path, depth + 1) else []
  }

  lemma SelectedFromTop(lib: Library, groups: seq<seq<Cond>>, n: Node, path: string, depth: nat)
    ensures Selected(lib, groups, FullWalk(n, path, depth))
            == Own(lib, groups, EntryOf(n, path, depth)) + Selected(lib, groups, Under(n, path, depth))
  {
    var e, below := EntryOf(n, path, depth), Under(n, path, depth);
    assert FullWalk(n, path, depth) == [e] + below;
    assert ([e] + below)[1..] == below;
  }

  lemma AccountsFromTop(own: seq<string>, all: seq<string>, printed: seq<string>, lost: seq<string>)
    requires Accounts(all, printed, lost)
    ensures Accounts(own + all, own + printed, lost)
  {
  }

  lemma {:induction false} LossAccounted(lib: Library, groups: seq<seq<Cond>>, limit: int, n: Node, path: string, depth: nat)
    ensures Accounts(Selected(lib, groups, FullWalk(n, path, depth)), PrunedWalk(lib, groups, limit, n, path, depth),
                     Lost(lib, groups, limit, n, path, depth))
    decreases n, 1
  {
    var own, all := Own(lib, groups, EntryOf(n, path, depth)), Selected(lib, groups, Under(n, path, depth));
    SelectedFromTop(lib, groups, n, path, depth);
    if Descends(lib, groups, limit, n, path, depth) {
      LossAccountedIn(lib, groups, limit, n.children, path, depth + 1);
      AccountsFromTop(own, all, PrunedWalks(lib, groups, limit, n.children, path, depth + 1),
                      LostIn(lib, groups, limit, n.children, path, depth + 1));
    } else {
      assert Accounts(all, [], all);
      AccountsFromTop(own, all, [], all);
    }
  }

  lemma {:induction false} LossAccountedIn(lib: Library, groups: seq<seq<Cond>>, limit: int, ns: seq<Node>, path: string,
                                           depth: nat)
    ensures Accounts(Selected(lib, groups, FullWalks(ns, path, depth)), PrunedWalks(lib, groups, limit, ns, path, depth),
                     LostIn(lib, groups, limit, ns, path, depth))
    decreases ns, 0
  {
    if ns != [] {
      var first := JoinPath(path, ns[0].name);
      LossAccounted(lib, groups, limit, ns[0], first, depth);
      LossAccountedIn(lib, groups, limit, ns[1..], path, depth);
      SelectedConcat(lib, groups, FullWalk(ns[0], first, depth), FullWalks(ns[1..], path, depth));
      AccountsConcat(Selected(lib, groups, FullWalk(ns[0], first, depth)),
                     PrunedWalk(lib, groups, limit, ns[0], first, depth),
                     Lost(lib, groups, limit, ns[0], first, depth),
                     Selected(lib, groups, FullWalks(ns[1..], path, depth)),
                     PrunedWalks(lib, groups, limit, ns[1..], path, depth),
                     LostIn(lib, groups, limit, ns[1..], path, depth));
    }
  }

  /** For every command, library and tree: the pruned output and the matches
      below pruned directories together are the full output, each path as often,
      and the two outputs are equal exactly when nothing is lost. */
  lemma PruningLosesExactly(lib: Library, groups: seq<seq<Cond>>, limit: int, n: Node, path: string)
    ensures multiset(Selected(lib, groups, FullWalk(n, path, 0)))
            == multiset(PrunedWalk(lib, groups, limit, n, path, 0)) + multiset(Lost(lib, groups, limit, n, path, 0))
    ensures PrunedWalk(lib, groups, limit, n, path, 0) == Selected(lib, groups, FullWalk(n, path, 0))
            <==> Lost(lib, groups, limit, n, path, 0) == []
  {
    LossAccounted(lib, groups, limit, n, path, 0);
    var lost := Lost(lib, groups, limit, n, path, 0);
    if lost != [] {
      assert lost[0] in multiset(lost);
    }
  }

  /** A command line whose every OR-group carries the scanned limit un-negated,
      or has none, prints what the full walk would. */
  lemma OrCommandPrunesExactly(lib: Library, tokens: seq<string>, n: Node, path: string)
    requires ParseCommand(tokens).Some?
    requires ScannedLimit(tokens) >= 0 ==> EveryGroupLimits(ParseCommand(tokens).value, ScannedLimit(tokens))
    ensures var groups := ParseCommand(tokens).value;
            PrunedWalk(lib, groups, ScannedLimit(tokens), n, path, 0) == Selected(lib, groups, FullWalk(n, path, 0))
  {
    var groups, limit := ParseCommand(tokens).value, ScannedLimit(tokens);
    if limit >= 0 {
      LimitedGroupsMatchNothingDeep(lib, groups, limit);
    }
    PruningIsExact(lib, groups, limit, n, path, 0);
  }

  // ------------------------------------------------------------------ commands about depth and type

  /** Conditions on depth and kind, print actions, and their negations. */
  predicate Structural(cond: Cond) {
    match cond
    case Not(inner) => Structural(inner)
    case MaxDepth(_) => true
    case MinDepth(_) => true
    case Print => true
    case TypeIs(kind) => kind in ["f", "d", "l"]
    case _ => false
  }

  /** The depths lo, lo + 1, ... up to `hi` if there is one, for some kinds of entry. */
  datatype Range = Range(lo: int, hi: Option<int>, kinds: set<Kind>)

  predicate Within(r: Range, depth: int, kind: Kind) {
    r.lo <= depth && (r.hi.Some? ==> depth <= r.hi.value) && kind in r.kinds
  }

  function AllKinds(): set<Kind> {
    {Regular, Directory, Symlink, Other}
  }

  lemma EveryKind(kind: Kind)
    ensures kind in AllKinds()
  {
  }

  function KindOf(kind: string): Kind {
    if kind == "f" then Regular else if kind == "d" then Directory else Symlink
  }

  function RangeOf(cond: Cond, negated: bool): Range
    requires Structural(cond)
  {
    match cond
    case Not(inner) => RangeOf(inner, !negated)
    case MaxDepth(n) => if negated then Range(n + 1, None, AllKinds()) else Range(0, Some(n), AllKinds())
    case MinDepth(n) => if negated then Range(0, Some(n - 1), AllKinds()) else Range(n, None, AllKinds())
    case Print => Range(0, None, if negated then {} else AllKinds())
    case TypeIs(kind) => Range(0, None, if negated then AllKinds() - {KindOf(kind)} else {KindOf(kind)})
  }

  function Meet(a: Range, b: Range): Range {
    Range(if a.lo > b.lo then a.lo else b.lo,
          if a.hi.None? then b.hi else if b.hi.None? then a.hi
          else if a.hi.value < b.hi.value then a.hi else b.hi,
          a.kinds * b.kinds)
  }

  ghost predicate AllStructural(conds: seq<Cond>) {
    forall c :: 0 <= c < |conds| ==> Structural(conds[c])
  }

  ghost function RangeOfAll(conds: seq<Cond>): Range
    requires AllStructural(conds)
  {
    if conds == [] then Range(0, None, AllKinds()) else Meet(RangeOf(conds[0], false), RangeOfAll(conds[1..]))
  }

  lemma {:induction false} NotTwice(cond: Cond, depth: nat, kind: Kind)
    requires Structural(cond)
    ensures Within(RangeOf(cond, true), depth, kind) == !Within(RangeOf(cond, false), depth, kind)
    decreases cond
  {
    if cond.Not? {
      NotTwice(cond.inner, depth, kind);
    }
  }

  lemma {:induction false} EvalStructural(lib: Library, cond: Cond, e: Entry)
    requires Structural(cond)
    ensures Eval(lib, cond, e) == Some(Within(RangeOf(cond, false), e.depth, e.kind))
    decreases cond
  {
    EveryKind(e.kind);
    if cond.Not? {
      EvalStructural(lib, cond.inner, e);
      NotTwice(cond.inner, e.depth, e.kind);
    }
  }

  lemma {:induction false} AllHoldStructural(lib: Library, conds: seq<Cond>, e: Entry)
    requires AllStructural(conds)
    ensures AllHold(lib, conds, e) == Some(Within(RangeOfAll(conds), e.depth, e.kind))
  {
    EveryKind(e.kind);
    if conds != [] {
      EvalStructural(lib, conds[0], e);
      AllHoldStructural(lib, conds[1..], e);
    }
  }

  ghost predicate StructuralCommand(groups: seq<seq<Cond>>) {
    forall g :: 0 <= g < |groups| ==> AllStructural(groups[g])
  }

  ghost predicate MatchesAt(groups: seq<seq<Cond>>, depth: nat, kind: Kind)
    requires StructuralCommand(groups)
  {
    exists g :: 0 <= g < |groups| && Within(RangeOfAll(groups[g]), depth, kind)
  }

  lemma {:induction false} AnyHoldsStructural(lib: Library, groups: seq<seq<Cond>>, e: Entry)
    requires StructuralCommand(groups)
    ensures AnyHolds(lib, groups, e) == Some(MatchesAt(groups, e.depth, e.kind))
  {
    if groups != [] {
      AllHoldStructural(lib, groups[0], e);
      AnyHoldsStructural(lib, groups[1..], e);
      if g :| 0 <= g < |groups| && Within(RangeOfAll(groups[g]), e.depth, e.kind) && g > 0 {
        assert Within(RangeOfAll(groups[1..][g - 1]), e.depth, e.kind);
      }
    }
  }

  /** A group's range ends by the limit, or is empty. */
  ghost predicate Shallow(conds: seq<Cond>, limit: int)
    requires AllStructural(conds)
  {
    var r := RangeOfAll(conds);
    r.kinds == {} || (r.hi.Some? && (r.hi.value <= limit || r.hi.value < r.lo))
  }

  /** k directories, one in the other, and an entry of some kind at the bottom. */
  function Chain(k: nat, kind: Kind): Node {
    if k == 0 then Node("d", kind, None, []) else Node("d", Directory, None, [Chain(k - 1, kind)])
  }

  lemma ChainFromTop(lib: Library, groups: seq<seq<Cond>>, k: nat, kind: Kind, path: string, depth: nat)
    requires k > 0
    ensures Selected(lib, groups, FullWalk(Chain(k, kind), path, depth))
            == Own(lib, groups, EntryOf(Chain(k, kind), path, depth))
               + Selected(lib, groups, FullWalk(Chain(k - 1, kind), JoinPath(path, "d"), depth + 1))
  {
    SelectedFromTop(lib, groups, Chain(k, kind), path, depth);
    OneWalked(Chain(k - 1, kind), path, depth + 1);
  }

  lemma BottomOfChain(lib: Library, groups: seq<seq<Cond>>, kind: Kind, path: string, depth: nat)
    requires HoldsAt(lib, groups, depth, kind)
    ensures Selected(lib, groups, FullWalk(Chain(0, kind), path, depth)) != []
  {
    SelectedFromTop(lib, groups, Chain(0, kind), path, depth);
    assert EntryOf(Chain(0, kind), path, depth).kind == kind;
  }

  /** Every entry of that depth and kind matches. */
  ghost predicate HoldsAt(lib: Library, groups: seq<seq<Cond>>, depth: nat, kind: Kind) {
    forall e: Entry :: e.depth == depth && e.kind == kind ==> AnyHolds(lib, groups, e) == Some(true)
  }

  lemma ChainStep(lib: Library, groups: seq<seq<Cond>>, k: nat, kind: Kind, path: string, depth: nat)
    requires k > 0
    requires Selected(lib, groups, FullWalk(Chain(k - 1, kind), JoinPath(path, "d"), depth + 1)) != []
    ensures Selected(lib, groups, FullWalk(Chain(k, kind), path, depth)) != []
  {
    ChainFromTop(lib, groups, k, kind, path, depth);
  }

  lemma {:induction false} ChainHasDeep(lib: Library, groups: seq<seq<Cond>>, k: nat, kind: Kind, path: string, depth: nat)
    requires HoldsAt(lib, groups, depth + k, kind)
    ensures Selected(lib, groups, FullWalk(Chain(k, kind), path, depth)) != []
    decreases k
  {
    if k == 0 {
      BottomOfChain(lib, groups, kind, path, depth);
    } else {
      var next := JoinPath(path, "d");
      ChainHasDeep(lib, groups, k - 1, kind, next, depth + 1);
      ChainStep(lib, groups, k, kind, path, depth);
    }
  }

  lemma ChainLoss(lib: Library, groups: seq<seq<Cond>>, limit: int, k: nat, kind: Kind, path: string, depth: nat)
    requires StructuralCommand(groups) && limit >= 0 && k > 0
    ensures Lost(lib, groups, limit, Chain(k, kind), path, depth)
            == if depth < limit then Lost(lib, groups, limit, Chain(k - 1, kind), JoinPath(path, "d"), depth + 1)
               else Selected(lib, groups, FullWalk(Chain(k - 1, kind), JoinPath(path, "d"), depth + 1))
  {
    var inside := [Chain(k - 1, kind)];
    assert inside[1..] == [] && Chain(k, kind).children == inside;
    AnyHoldsStructural(lib, groups, EntryOf(Chain(k, kind), path, depth));
    if depth < limit {
      OneLost(lib, groups, limit, Chain(k - 1, kind), path, depth + 1);
    } else {
      OneWalked(Chain(k - 1, kind), path, depth + 1);
    }
  }

  lemma OneLost(lib: Library, groups: seq<seq<Cond>>, limit: int, n: Node, path: string, depth: nat)
    ensures LostIn(lib, groups, limit, [n], path, depth) == Lost(lib, groups, limit, n, JoinPath(path, n.name), depth)
  {
    assert [n][1..] == [];
    var lost := Lost(lib, groups, limit, n, JoinPath(path, n.name), depth);
    assert lost + [] == lost;
  }

  lemma OneWalked(n: Node, path: string, depth: nat)
    ensures FullWalks([n], path, depth) == FullWalk(n, JoinPath(path, n.name), depth)
  {
    assert [n][1..] == [];
    var walk := FullWalk(n, JoinPath(path, n.name), depth);
    assert walk + [] == walk;
  }

  /** On a chain long enough to reach a match below the limit, pruning loses it. */
  lemma {:induction false} ChainLoses(lib: Library, groups: seq<seq<Cond>>, limit: int, k: nat, kind: Kind, path: string,
                                      depth: nat)
    requires StructuralCommand(groups) && depth <= limit < depth + k
    requires HoldsAt(lib, groups, depth + k, kind)
    ensures Lost(lib, groups, limit, Chain(k, kind), path, depth) != []
    decreases k
  {
    ChainLoss(lib, groups, limit, k, kind, path, depth);
    if depth < limit {
      ChainLoses(lib, groups, limit, k - 1, kind, JoinPath(path, "d"), depth + 1);
    } else {
      ChainHasDeep(lib, groups, k - 1, kind, JoinPath(path, "d"), depth + 1);
    }
  }

  lemma ShallowMatchesNothingDeep(lib: Library, groups: seq<seq<Cond>>, limit: int)
    requires StructuralCommand(groups) && forall g :: 0 <= g < |groups| ==> Shallow(groups[g], limit)
    ensures NoDeepMatch(lib, groups, limit)
  {
    forall e: Entry | e.depth > limit ensures AnyHolds(lib, groups, e) != Some(true) {
      AnyHoldsStructural(lib, groups, e);
    }
  }

  lemma DeepGroupLoses(lib: Library, groups: seq<seq<Cond>>, limit: int, g: nat) returns (n: Node)
    requires StructuralCommand(groups) && limit >= 0 && g < |groups| && !Shallow(groups[g], limit)
    ensures PrunedWalk(lib, groups, limit, n, ".", 0) != Selected(lib, groups, FullWalk(n, ".", 0))
  {
    var r := RangeOfAll(groups[g]);
    var k := if r.lo > limit then r.lo else limit + 1;
    var kind :| kind in r.kinds;
    assert MatchesAt(groups, k, kind);
    forall e: Entry | e.depth == k && e.kind == kind ensures AnyHolds(lib, groups, e) == Some(true) {
      AnyHoldsStructural(lib, groups, e);
    }
    n := Chain(k, kind);
    ChainLoses(lib, groups, limit, k, kind, ".", 0);
    PruningLosesExactly(lib, groups, limit, n, ".");
  }

  /** For command lines about depth and type, negated or under -o as may be:
      pruning at the scanned limit is exact on every tree if and only if there is
      no limit or every OR-group's range ends by the limit or is empty. */
  lemma StructuralCommandPrunesExactly(lib: Library, tokens: seq<string>)
    requires ParseCommand(tokens).Some? && StructuralCommand(ParseCommand(tokens).value)
    ensures var groups, limit := ParseCommand(tokens).value, ScannedLimit(tokens);
            (forall n: Node, path: string ::
               PrunedWalk(lib, groups, limit, n, path, 0) == Selected(lib, groups, FullWalk(n, path, 0)))
            <==> limit < 0 || forall g :: 0 <= g < |groups| ==> Shallow(groups[g], limit)
  {
    var groups, limit := ParseCommand(tokens).value, ScannedLimit(tokens);
    if limit < 0 || forall g :: 0 <= g < |groups| ==> Shallow(groups[g], limit) {
      if limit >= 0 {
        ShallowMatchesNothingDeep(lib, groups, limit);
      }
      forall n: Node, path: string
        ensures PrunedWalk(lib, groups, limit, n, path, 0) == Selected(lib, groups, FullWalk(n, path, 0))
      {
        PruningIsExact(lib, groups, limit, n, path, 0);
      }
    } else {
      var g :| 0 <= g < |groups| && !Shallow(groups[g], limit);
      var n := DeepGroupLoses(lib, groups, limit, g);
    }
  }

  /** A directory with one file in it. */
  function Small(): Node {
    Node("d", Directory, None, [Node("f", Regular, Some(1), [])])
  }

  const NEGATED: seq<string> := ["-not", "-maxdepth", "0"]
  const ONE_SIDED: seq<string> := ["-maxdepth", "0", "-o", "-type", "f"]

  /** A negated limit breaks this: `find d -not -maxdepth 0` is scanned for the
      limit 0 and prints nothing, although the file below satisfies the condition. */
  lemma NegatedLimitLosesOutput(lib: Library)
    ensures var groups := [[Not(MaxDepth(0))]];
            && ParseCommand(NEGATED) == Some(groups) && ScannedLimit(NEGATED) == 0
            && PrunedWalk(lib, groups, ScannedLimit(NEGATED), Small(), "d", 0) == []
            && Selected(lib, groups, FullWalk(Small(), "d", 0)) == ["d/f"]
  {
    ParseNegated();
    ScanNegated();
    EvalOne(lib, Not(MaxDepth(0)), Entry("d", Directory, None, 0));
    EvalOne(lib, Not(MaxDepth(0)), Entry("d/f", Regular, Some(1), 1));
    SelectTwo(lib, [[Not(MaxDepth(0))]]);
    SmallWalk();
  }

  /** So does an OR whose other side has no limit: `find d -maxdepth 0 -o -type f`. */
  lemma OtherSideLosesOutput(lib: Library)
    ensures var groups := [[MaxDepth(0)], [TypeIs("f")]];
            && ParseCommand(ONE_SIDED) == Some(groups) && ScannedLimit(ONE_SIDED) == 0
            && PrunedWalk(lib, groups, ScannedLimit(ONE_SIDED), Small(), "d", 0) == ["d"]
            && Selected(lib, groups, FullWalk(Small(), "d", 0)) == ["d", "d/f"]
  {
    ParseOneSided();
    ScanOneSided();
    EvalOne(lib, MaxDepth(0), Entry("d", Directory, None, 0));
    EvalOne(lib, MaxDepth(0), Entry("d/f", Regular, Some(1), 1));
    EvalOne(lib, TypeIs("f"), Entry("d/f", Regular, Some(1), 1));
    assert [[MaxDepth(0)], [TypeIs("f")]][1..] == [[TypeIs("f")]];
    SelectTwo(lib, [[MaxDepth(0)], [TypeIs("f")]]);
    SmallWalk();
  }

  lemma AtoiZero()
    ensures Atoi("0") == Some(0)
  {
    assert "0"[0] == '0';
    assert DigitsValue("0") == Some(0);
  }

  lemma ScanStep(tokens: seq<string>, i: nat)
    requires i < |tokens|
    ensures ScannedDepths(tokens, i + 1) == ScannedDepths(tokens, i) + ScannedAt(tokens, i)
  {
  }

  lemma LimitOfOne(n: nat)
    ensures LimitOf([n]) == n
  {
    assert [n][..0] == [];
  }

  lemma ScanNegated()
    ensures ScannedLimit(NEGATED) == 0
  {
    AtoiZero();
    ScanStep(NEGATED, 0);
    ScanStep(NEGATED, 1);
    ScanStep(NEGATED, 2);
    LimitOfOne(0);
  }

  lemma ScanOneSided()
    ensures ScannedLimit(ONE_SIDED) == 0
  {
    AtoiZero();
    ScanStep(ONE_SIDED, 0);
    ScanStep(ONE_SIDED, 1);
    ScanStep(ONE_SIDED, 2);
    ScanStep(ONE_SIDED, 3);
    ScanStep(ONE_SIDED, 4);
    LimitOfOne(0);
  }

  lemma OneOption(option: string, argument: string)
    requires option in WITH_ARGUMENT && option != "-not" && option != "!" && !IsPrint(option)
    requires OneArgument(option, argument).Some?
    ensures ParseGroup([option, argument], 0) == Some([OneArgument(option, argument).value])
  {
    var tokens := [option, argument];
    var cond := OneArgument(option, argument).value;
    assert ParseCond(tokens, 0) == Some((cond, 2));
    assert ParseGroup(tokens, 2) == Some([]);
    assert [cond] + [] == [cond];
  }

  lemma ParseOneSided()
    ensures ParseCommand(ONE_SIDED) == Some([[MaxDepth(0)], [TypeIs("f")]])
  {
    SplitOneSided();
    AtoiZero();
    assert WITH_ARGUMENT[5] == "-maxdepth" && WITH_ARGUMENT[4] == "-type";
    OneOption("-maxdepth", "0");
    OneOption("-type", "f");
    var rest := [["-type", "f"]];
    assert [["-maxdepth", "0"], ["-type", "f"]][1..] == rest && rest[1..] == [];
    assert OneArgument("-type", "f") == Some(TypeIs("f")) && OneArgument("-maxdepth", "0") == Some(MaxDepth(0));
    assert ParseGroups([]) == Some([]) && [[TypeIs("f")]] + [] == [[TypeIs("f")]];
    assert ParseGroups(rest) == Some([[TypeIs("f")]]);
    assert [[MaxDepth(0)]] + [[TypeIs("f")]] == [[MaxDepth(0)], [TypeIs("f")]];
  }

  lemma SplitOneSided()
    ensures SplitOr(ONE_SIDED, []) == [["-maxdepth", "0"], ["-type", "f"]]
  {
    WithoutOr(["-type", "f"], []);
    assert [] + ["-type", "f"] == ["-type", "f"];
    var t2 := ["-o", "-type", "f"];
    assert t2[1..] == ["-type", "f"];
    assert SplitOr(t2, ["-maxdepth", "0"]) == [["-maxdepth", "0"]] + [["-type", "f"]];
    var t1 := ["0", "-o", "-type", "f"];
    assert t1[1..] == t2 && ["-maxdepth"] + ["0"] == ["-maxdepth", "0"];
    assert SplitOr(t1, ["-maxdepth"]) == SplitOr(t2, ["-maxdepth", "0"]);
    assert ONE_SIDED[1..] == t1 && [] + ["-maxdepth"] == ["-maxdepth"];
  }

  lemma ParseNegated()
    ensures ParseCommand(NEGATED) == Some([[Not(MaxDepth(0))]])
  {
    AtoiZero();
    assert WITH_ARGUMENT[5] == "-maxdepth";
    assert ParseCond(NEGATED, 1) == Some((MaxDepth(0), 3));
    assert ParseCond(NEGATED, 0) == Some((Not(MaxDepth(0)), 3));
    assert ParseGroup(NEGATED, 3) == Some([]);
    assert !IsPrint(NEGATED[0]);
    assert [Not(MaxDepth(0))] + [] == [Not(MaxDepth(0))];
    CommandWithoutOr(NEGATED);
  }

  lemma EvalOne(lib: Library, cond: Cond, e: Entry)
    ensures AllHold(lib, [cond], e) == Eval(lib, cond, e)
    ensures AnyHolds(lib, [[cond]], e) == Eval(lib, cond, e)
  {
    assert [cond][1..] == [] && [[cond]][1..] == [];
    assert AllHold(lib, [], e) == Some(true);
  }

  lemma SelectTwo(lib: Library, groups: seq<seq<Cond>>)
    ensures Selected(lib, groups, [Entry("d", Directory, None, 0), Entry("d/f", Regular, Some(1), 1)])
            == (if AnyHolds(lib, groups, Entry("d", Directory, None, 0)) == Some(true) then ["d"] else [])
               + (if AnyHolds(lib, groups, Entry("d/f", Regular, Some(1), 1)) == Some(true) then ["d/f"] else [])
  {
    var a, b := Entry("d", Directory, None, 0), Entry("d/f", Regular, Some(1), 1);
    assert [a, b][1..] == [b] && [b][1..] == [];
    assert Selected(lib, groups, []) == [];
  }

  lemma SmallWalk()
    ensures FullWalk(Small(), "d", 0) == [Entry("d", Directory, None, 0), Entry("d/f", Regular, Some(1), 1)]
  {
    var file := Small().children[0];
    assert FullWalks(Small().children[1..], "d", 1) == [];
    assert JoinPath("d", "f") == "d/f";
    assert FullWalk(file, "d/f", 1) == [Entry("d/f", Regular, Some(1), 1)];
  }

  // ------------------------------------------------------------------ what a command line asks

  predicate Digits(s: string) {
    s != "" && forall i :: 0 <= i < |s| ==> '0' <= s[i] <= '9'
  }

  lemma {:induction false} DigitsValueExactly(s: string)
    ensures DigitsValue(s).Some? <==> Digits(s)
    ensures DigitsValue(s).Some? ==> DigitsValue(s).value == DecimalValue(s)
  {
    if s != "" {
      var n := |s| - 1;
      DigitsValueExactly(s[..n]);
      if n > 0 {
        assert forall i :: 0 <= i < n ==> s[..n][i] == s[i];
      }
    }
  }

  /** Every numeral of a natural number is one of digits that has its value. */
  lemma DecimalDigits(n: nat)
    ensures Digits(Decimal(n)) && DecimalValue(Decimal(n)) == n
  {
    DecimalIsPlain(n);
    DecimalRoundTrip(n);
    forall i | 0 <= i < |Decimal(n)| ensures '0' <= Decimal(n)[i] <= '9' {
      assert Decimal(n)[i] in Decimal(n);
    }
  }

  /** Numbers in the range of 64 bits are read, with or without a sign. */
  lemma {:induction false} AtoiReads(sign: string, digits: string)
    requires sign in {"", "+", "-"} && Digits(digits) && DecimalValue(digits) < 0x8000_0000_0000_0000
    ensures Atoi(sign + digits) == Some(if sign == "-" then -(DecimalValue(digits) as int) else DecimalValue(digits))
  {
    var s := sign + digits;
    DigitsValueExactly(digits);
    assert '0' <= digits[0] <= '9';
    if sign == "" {
      assert s == digits;
    } else {
      assert s[0] == sign[0] && s[1..] == digits;
    }
  }

  /** What matching says about an entry under a command line that parses. */
  function Verdict(lib: Library, tokens: seq<string>, e: Entry): Option<bool>
    requires ParseCommand(tokens).Some?
  {
    AnyHolds(lib, ParseCommand(tokens).value, e)
  }

  ghost predicate Asks(lib: Library, tokens: seq<string>, e: Entry, verdict: Option<bool>) {
    ParseCommand(tokens).Some? && Verdict(lib, tokens, e) == verdict
  }

  lemma OptionAsks(lib: Library, option: string, argument: string, e: Entry)
    requires option in WITH_ARGUMENT && argument != "-o" && OneArgument(option, argument).Some?
    ensures Asks(lib, [option, argument], e, Eval(lib, OneArgument(option, argument).value, e))
  {
    assert option != "-o" && option != "-not" && option != "!" && !IsPrint(option);
    CommandWithoutOr([option, argument]);
    OneOption(option, argument);
    EvalOne(lib, OneArgument(option, argument).value, e);
  }

  lemma OptionNames()
    ensures forall option :: option in WITH_ARGUMENT
              <==> option in {"-name", "-iname", "-path", "-ipath", "-type", "-maxdepth", "-mindepth", "-size"}
  {
    assert WITH_ARGUMENT[0] == "-name" && WITH_ARGUMENT[1] == "-iname" && WITH_ARGUMENT[2] == "-path";
    assert WITH_ARGUMENT[3] == "-ipath" && WITH_ARGUMENT[4] == "-type" && WITH_ARGUMENT[5] == "-maxdepth";
    assert WITH_ARGUMENT[6] == "-mindepth" && WITH_ARGUMENT[7] == "-size";
  }

  /** A name option asks about the last element of the path, a path option about the
      whole of it, also with "./" in front; the variants with i ignore case. */
  lemma PatternOptions(lib: Library, pattern: string, e: Entry)
    requires pattern != "-o"
    ensures Asks(lib, ["-name", pattern], e, lib.globMatch(pattern, lib.base(e.path)))
    ensures Asks(lib, ["-iname", pattern], e, lib.globMatch(lib.lower(pattern), lib.lower(lib.base(e.path))))
    ensures var plain := lib.globMatch(pattern, e.path);
            Asks(lib, ["-path", pattern], e, if plain == Some(false) then lib.globMatch(pattern, "./" + e.path) else plain)
    ensures var folded, path := lib.lower(pattern), lib.lower(e.path);
            var plain := lib.globMatch(folded, path);
            Asks(lib, ["-ipath", pattern], e, if plain == Some(false) then lib.globMatch(folded, "./" + path) else plain)
  {
    OptionNames();
    OptionAsks(lib, "-name", pattern, e);
    OptionAsks(lib, "-iname", pattern, e);
    OptionAsks(lib, "-path", pattern, e);
    OptionAsks(lib, "-ipath", pattern, e);
  }

  /** Only the three letters name a type; any other is an error at every entry. */
  lemma TypeOption(lib: Library, letter: string, e: Entry)
    requires letter != "-o"
    ensures Asks(lib, ["-type", "f"], e, Some(e.kind == Regular))
    ensures Asks(lib, ["-type", "d"], e, Some(e.kind == Directory))
    ensures Asks(lib, ["-type", "l"], e, Some(e.kind == Symlink))
    ensures letter !in {"f", "d", "l"} ==> Asks(lib, ["-type", letter], e, None)
  {
    OptionNames();
    OptionAsks(lib, "-type", "f", e);
    OptionAsks(lib, "-type", "d", e);
    OptionAsks(lib, "-type", "l", e);
    OptionAsks(lib, "-type", letter, e);
  }

  lemma {:induction false} DepthAsks(lib: Library, argument: string, n: int, e: Entry)
    requires argument != "-o" && Atoi(argument) == Some(n)
    ensures Asks(lib, ["-maxdepth", argument], e, Some(e.depth <= n))
    ensures Asks(lib, ["-mindepth", argument], e, Some(e.depth >= n))
  {
    OptionNames();
    OptionAsks(lib, "-maxdepth", argument, e);
    OptionAsks(lib, "-mindepth", argument, e);
  }

  lemma {:induction false} DepthOptions(lib: Library, digits: string, e: Entry)
    requires Digits(digits) && DecimalValue(digits) < 0x8000_0000_0000_0000
    ensures Asks(lib, ["-maxdepth", digits], e, Some(e.depth <= DecimalValue(digits)))
    ensures Asks(lib, ["-mindepth", digits], e, Some(e.depth >= DecimalValue(digits)))
  {
    AtoiReads("", digits);
    assert "" + digits == digits && '0' <= digits[0] <= '9';
    DepthAsks(lib, digits, DecimalValue(digits), e);
  }

  /** Bytes in a unit; the unit without a letter is a block. */
  function UnitBytes(unit: string): Option<nat> {
    match unit
    case "" => Some(512)
    case "c" => Some(1)
    case "k" => Some(1024)
    case "M" => Some(1024 * 1024)
    case "G" => Some(1024 * 1024 * 1024)
    case _ => None
  }

  predicate Compares(sign: string, size: int, bytes: int)
    requires sign in {"", "+", "-"}
  {
    if sign == "+" then size > bytes else if sign == "-" then size < bytes else size == bytes
  }

  lemma {:induction false} UnitRead(digits: string, unit: string)
    requires digits != "" && digits[|digits| - 1] !in "ckMG" && UnitBytes(unit).Some?
    ensures SizeInBytes(digits + unit)
            == if Atoi(digits).None? then None else Some(Wrap64(Atoi(digits).value * UnitBytes(unit).value))
  {
    var s := digits + unit;
    if unit == "" {
      assert s == digits;
    } else {
      assert s[..|s| - 1] == digits && s[|s| - 1] == unit[0];
    }
  }

  lemma {:induction false} BytesRead(digits: string, unit: string)
    requires Digits(digits) && DecimalValue(digits) < 0x8000_0000_0000_0000 && UnitBytes(unit).Some?
    ensures SizeInBytes(digits + unit) == Some(Wrap64(DecimalValue(digits) * UnitBytes(unit).value))
  {
    assert Atoi(digits) == Some(DecimalValue(digits)) by {
      AtoiReads("", digits);
      assert "" + digits == digits;
    }
    UnitRead(digits, unit);
  }

  function Sign(sign: string): Comparison {
    if sign == "+" then Larger else if sign == "-" then Smaller else Exactly
  }

  lemma {:induction false} SignRead(sign: string, rest: string)
    requires sign in {"", "+", "-"} && rest != "" && rest[0] != '+' && rest[0] != '-' && SizeInBytes(rest).Some?
    ensures ParseFindSize(sign + rest) == Some((Sign(sign), SizeInBytes(rest).value))
  {
    if sign == "" {
      assert sign + rest == rest;
    } else {
      assert (sign + rest)[0] == sign[0] && (sign + rest)[1..] == rest;
    }
  }

  /** 64-bit wrap-around: the same number modulo 2^64, and in range. */
  lemma WrapExactly(n: int)
    ensures -0x8000_0000_0000_0000 <= Wrap64(n) < 0x8000_0000_0000_0000
    ensures (Wrap64(n) - n) % 0x1_0000_0000_0000_0000 == 0
    ensures -0x8000_0000_0000_0000 <= n < 0x8000_0000_0000_0000 ==> Wrap64(n) == n
  {
  }

  /** A size option compares with the number times its unit: `+` for more, `-` for
      less, otherwise exactly. An entry of unknown size is not selected. */
  lemma {:induction false} SizeOption(lib: Library, sign: string, digits: string, unit: string, e: Entry)
    requires sign in {"", "+", "-"} && Digits(digits) && UnitBytes(unit).Some?
    requires DecimalValue(digits) * UnitBytes(unit).value < 0x8000_0000_0000_0000
    ensures Asks(lib, ["-size", sign + (digits + unit)], e,
                 Some(e.size.Some? && Compares(sign, e.size.value, DecimalValue(digits) * UnitBytes(unit).value)))
  {
    var bytes, argument := DecimalValue(digits) * UnitBytes(unit).value, sign + (digits + unit);
    assert DecimalValue(digits) <= bytes;
    assert (digits + unit)[0] == digits[0];
    BytesRead(digits, unit);
    SignRead(sign, digits + unit);
    WrapExactly(bytes);
    SizeAsks(lib, argument, Sign(sign), bytes, e);
  }

  lemma {:induction false} SizeAsks(lib: Library, argument: string, cmp: Comparison, bytes: int, e: Entry)
    requires ParseFindSize(argument) == Some((cmp, bytes))
    ensures Asks(lib, ["-size", argument], e, Eval(lib, Size(cmp, bytes), e))
  {
    OptionNames();
    assert argument != "-o" by {
      assert "-o"[1..] == "o" && !('0' <= 'o' <= '9');
      assert ParseFindSize("-o").None?;
    }
    OptionAsks(lib, "-size", argument, e);
  }

  /** A condition is read from its own tokens, whatever stands before and after. */
  lemma {:induction false} CondInContext(before: seq<string>, a: seq<string>, pos: nat, after: seq<string>)
    requires ParseCond(a, pos).Some?
    ensures ParseCond(before + a + after, |before| + pos)
            == Some((ParseCond(a, pos).value.0, |before| + ParseCond(a, pos).value.1))
    decreases |a| - pos
  {
    var all := before + a + after;
    assert all[|before| + pos] == a[pos];
    if a[pos] == "-not" || a[pos] == "!" {
      CondInContext(before, a, pos + 1, after);
    } else if a[pos] in WITH_ARGUMENT {
      assert all[|before| + pos + 1] == a[pos + 1];
    }
  }

  lemma {:induction false} CondBefore(a: seq<string>, b: seq<string>, pos: nat)
    requires ParseCond(a, pos).Some?
    ensures ParseCond(a + b, pos) == ParseCond(a, pos)
  {
    CondInContext([], a, pos, b);
    assert [] + a + b == a + b;
  }

  lemma {:induction false} CondAfter(a: seq<string>, b: seq<string>, pos: nat)
    requires ParseCond(b, pos).Some?
    ensures ParseCond(a + b, |a| + pos) == Some((ParseCond(b, pos).value.0, |a| + ParseCond(b, pos).value.1))
    ensures (a + b)[|a| + pos] == b[pos]
  {
    CondInContext(a, b, pos, []);
    assert a + b + [] == a + b;
  }

  lemma {:induction false} GroupIs(tokens: seq<string>, pos: nat, cond: Cond, next: nat)
    requires pos < |tokens| && !IsPrint(tokens[pos]) && ParseCond(tokens, pos) == Some((cond, next))
    ensures ParseGroup(tokens, pos) == Before([cond], ParseGroup(tokens, next))
  {
  }

  /** A group reads on after its first part. */
  lemma {:induction false} GroupJoins(a: seq<string>, pos: nat, b: seq<string>)
    requires pos <= |a| && ParseGroup(a, pos).Some?
    ensures ParseGroup(a + b, pos) == Before(ParseGroup(a, pos).value, ParseGroup(a + b, |a|))
    decreases |a| - pos
  {
    if pos == |a| {
      BeforeNothing(ParseGroup(a + b, |a|));
    } else {
      assert (a + b)[pos] == a[pos];
      if IsPrint(a[pos]) {
        GroupJoins(a, pos + 1, b);
      } else {
        var cond := ParseCond(a, pos).value;
        CondBefore(a, b, pos);
        GroupIs(a, pos, cond.0, cond.1);
        GroupIs(a + b, pos, cond.0, cond.1);
        GroupJoins(a, cond.1, b);
        BeforeConcat(cond.0, ParseGroup(a, cond.1).value, ParseGroup(a + b, |a|));
      }
    }
  }

  lemma BeforeConcat(cond: Cond, conds: seq<Cond>, rest: Option<seq<Cond>>)
    ensures Before([cond], Before(conds, rest)) == Before([cond] + conds, rest)
  {
    if rest.Some? {
      assert [cond] + (conds + rest.value) == ([cond] + conds) + rest.value;
    }
  }

  /** Behind other tokens a group reads as it does on its own. */
  ghost predicate ReadsBehind(a: seq<string>, b: seq<string>, pos: nat)
    requires pos <= |b|
  {
    ParseGroup(a + b, |a| + pos) == ParseGroup(b, pos)
  }

  lemma {:induction false} PrintBehind(a: seq<string>, b: seq<string>, pos: nat)
    requires pos < |b| && IsPrint(b[pos]) && ReadsBehind(a, b, pos + 1)
    ensures ReadsBehind(a, b, pos)
  {
    assert (a + b)[|a| + pos] == b[pos];
  }

  lemma {:induction false} CondBehind(a: seq<string>, b: seq<string>, pos: nat, cond: Cond, next: nat)
    requires pos < |b| && !IsPrint(b[pos]) && ParseCond(b, pos) == Some((cond, next)) && next <= |b|
    requires ParseGroup(a + b, |a| + next) == ParseGroup(b, next)
    ensures ParseGroup(a + b, |a| + pos) == ParseGroup(b, pos)
  {
    CondAfter(a, b, pos);
    GroupIs(b, pos, cond, next);
    GroupIs(a + b, |a| + pos, cond, |a| + next);
  }

  lemma {:induction false} GroupOpens(tokens: seq<string>, pos: nat) returns (cond: Cond, next: nat)
    requires pos < |tokens| && !IsPrint(tokens[pos]) && ParseGroup(tokens, pos).Some?
    ensures ParseCond(tokens, pos) == Some((cond, next)) && pos < next <= |tokens| && ParseGroup(tokens, next).Some?
  {
    cond, next := ParseCond(tokens, pos).value.0, ParseCond(tokens, pos).value.1;
  }

  lemma {:induction false} GroupShifts(a: seq<string>, b: seq<string>, pos: nat)
    requires pos <= |b| && ParseGroup(b, pos).Some?
    ensures ReadsBehind(a, b, pos)
    decreases |b| - pos
  {
    if pos < |b| {
      if IsPrint(b[pos]) {
        GroupShifts(a, b, pos + 1);
        PrintBehind(a, b, pos);
      } else {
        var cond, next := GroupOpens(b, pos);
        GroupShifts(a, b, next);
        CondBehind(a, b, pos, cond, next);
      }
    }
  }

  lemma {:induction false} AllHoldJoins(lib: Library, a: seq<Cond>, b: seq<Cond>, e: Entry)
    ensures AllHold(lib, a + b, e) == if AllHold(lib, a, e) == Some(true) then AllHold(lib, b, e) else AllHold(lib, a, e)
  {
    if a == [] {
      assert a + b == b;
    } else {
      assert (a + b)[1..] == a[1..] + b;
      AllHoldJoins(lib, a[1..], b, e);
    }
  }

  lemma {:induction false} AnyHoldsJoins(lib: Library, a: seq<seq<Cond>>, b: seq<seq<Cond>>, e: Entry)
    ensures AnyHolds(lib, a + b, e)
            == if AnyHolds(lib, a, e) == Some(false) then AnyHolds(lib, b, e) else AnyHolds(lib, a, e)
  {
    if a == [] {
      assert a + b == b;
    } else {
      assert (a + b)[1..] == a[1..] + b;
      AnyHoldsJoins(lib, a[1..], b, e);
    }
  }

  lemma OneGroupHolds(lib: Library, conds: seq<Cond>, e: Entry)
    ensures AnyHolds(lib, [conds], e) == AllHold(lib, conds, e)
  {
    assert [conds][1..] == [];
  }

  /** Side by side, conditions select what all of them select; the first one that
      fails or errs decides. */
  lemma AndJoins(lib: Library, a: seq<string>, b: seq<string>, e: Entry)
    requires "-o" !in a && "-o" !in b && ParseCommand(a).Some? && ParseCommand(b).Some?
    ensures Asks(lib, a + b, e, if Verdict(lib, a, e) == Some(true) then Verdict(lib, b, e) else Verdict(lib, a, e))
  {
    CommandWithoutOr(a);
    CommandWithoutOr(b);
    CommandWithoutOr(a + b);
    GroupJoins(a, 0, b);
    GroupShifts(a, b, 0);
    var x, y := ParseGroup(a, 0).value, ParseGroup(b, 0).value;
    OneGroupHolds(lib, x, e);
    OneGroupHolds(lib, y, e);
    OneGroupHolds(lib, x + y, e);
    AllHoldJoins(lib, x, y, e);
  }

  lemma {:induction false} SplitJoins(a: seq<string>, b: seq<string>, current: seq<string>)
    ensures SplitOr(a + ["-o"] + b, current) == SplitOr(a, current) + SplitOr(b, [])
  {
    var all := a + ["-o"] + b;
    if a == [] {
      assert all[1..] == b;
    } else {
      assert all[1..] == a[1..] + ["-o"] + b;
      if a[0] == "-o" {
        SplitJoins(a[1..], b, []);
      } else {
        SplitJoins(a[1..], b, current + [a[0]]);
      }
    }
  }

  lemma {:induction false} FirstParsed(groups: seq<seq<string>>)
    requires groups != [] && ParseGroup(groups[0], 0).Some?
    ensures ParseGroups(groups) == After([ParseGroup(groups[0], 0).value], ParseGroups(groups[1..]))
  {
  }

  lemma AfterTwice(found: seq<seq<Cond>>, more: seq<seq<Cond>>, rest: Option<seq<seq<Cond>>>)
    ensures After(found, After(more, rest)) == After(found + more, rest)
  {
    if rest.Some? {
      assert found + (more + rest.value) == (found + more) + rest.value;
    }
  }

  lemma {:induction false} GroupsJoin(a: seq<seq<string>>, b: seq<seq<string>>)
    requires ParseGroups(a).Some?
    ensures ParseGroups(a + b) == After(ParseGroups(a).value, ParseGroups(b))
  {
    if a == [] {
      assert a + b == b;
      AfterNothing(ParseGroups(b));
    } else {
      var all := a + b;
      assert all[1..] == a[1..] + b && all[0] == a[0];
      FirstParsed(a);
      FirstParsed(all);
      GroupsJoin(a[1..], b);
      AfterTwice([ParseGroup(a[0], 0).value], ParseGroups(a[1..]).value, ParseGroups(b));
    }
  }

  /** With -o between them, two command lines select what either selects; the
      second is asked only where the first says no. */
  lemma OrJoins(lib: Library, a: seq<string>, b: seq<string>, e: Entry)
    requires ParseCommand(a).Some? && ParseCommand(b).Some?
    ensures Asks(lib, a + ["-o"] + b, e, if Verdict(lib, a, e) == Some(false) then Verdict(lib, b, e) else Verdict(lib, a, e))
  {
    SplitJoins(a, b, []);
    GroupsJoin(SplitOr(a, []), SplitOr(b, []));
    AnyHoldsJoins(lib, ParseCommand(a).value, ParseCommand(b).value, e);
  }

  /** A negation in front of one condition turns its answer round and keeps its errors. */
  lemma NotNegates(lib: Library, negation: string, a: seq<string>, e: Entry)
    requires negation in {"-not", "!"} && "-o" !in a
    requires ParseCond(a, 0).Some? && ParseCond(a, 0).value.1 == |a| && !IsPrint(a[0])
    ensures ParseCommand(a).Some?
    ensures Asks(lib, [negation] + a, e, if Verdict(lib, a, e).None? then None else Some(!Verdict(lib, a, e).value))
  {
    var cond := ParseCond(a, 0).value.0;
    WholeCondition(a, cond);
    NegationParses(negation, a, cond);
    WholeCondition([negation] + a, Not(cond));
    EvalOne(lib, cond, e);
    EvalOne(lib, Not(cond), e);
  }

  lemma {:induction false} NegationParses(negation: string, a: seq<string>, cond: Cond)
    requires negation in {"-not", "!"} && ParseCond(a, 0) == Some((cond, |a|))
    ensures ParseCond([negation] + a, 0) == Some((Not(cond), |a| + 1))
  {
    CondAfter([negation], a, 0);
    assert ([negation] + a)[0] == negation;
  }

  lemma WholeCondition(a: seq<string>, cond: Cond)
    requires "-o" !in a && ParseCond(a, 0) == Some((cond, |a|)) && !IsPrint(a[0])
    ensures ParseCommand(a) == Some([[cond]])
  {
    CommandWithoutOr(a);
    assert ParseGroup(a, |a|) == Some([]);
    assert [cond] + [] == [cond];
  }

  /** Printing is the default: the tokens ask nothing. */
  lemma PrintAsksNothing(lib: Library, token: string, e: Entry)
    requires token in {"-print", "-print0"}
    ensures Asks(lib, [token], e, Some(true)) && Asks(lib, [], e, Some(true))
  {
    CommandWithoutOr([token]);
    CommandWithoutOr([]);
    OneGroupHolds(lib, [], e);
  }

  /** The scan keeps the least of the limits. */
  lemma {:induction false} LimitIsLeast(depths: seq<int>)
    requires forall d :: d in depths ==> d >= 0
    ensures LimitOf(depths) == -1 <==> depths == []
    ensures depths != [] ==> LimitOf(depths) in depths && forall d :: d in depths ==> LimitOf(depths) <= d
  {
    if depths != [] {
      var front, last := depths[..|depths| - 1], depths[|depths| - 1];
      assert forall d :: d in depths <==> d in front || d == last;
      LimitIsLeast(front);
      assert last in depths && last >= 0;
    }
  }
}
