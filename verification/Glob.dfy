/** Workspace globs compiled to regular expressions (`globToRegex`,
    `compileWorkspaceGlob`). Strings are sequences of characters: the code scans
    bytes, but every byte it treats specially is ASCII. */
module Glob {
  import opened Common

  datatype GlobError = InvalidGlob(pattern: string)

  // ------------------------------------------------------------------ what the code emits

  /** `regexp.QuoteMeta`. */
  function QuoteMeta(s: string): string {
    if s == "" then "" else QuoteChar(s[0]) + QuoteMeta(s[1..])
  }

  function QuoteChar(c: char): string {
    if c in "\\.+*?()|[]{}^$" then ['\\', c] else [c]
  }

  /** Index of the first occurrence, or |s|. */
  function IndexOf(s: string, c: char): (i: nat)
    ensures i <= |s|
    ensures i < |s| ==> s[i] == c
    ensures c !in s[..i]
  {
    if s == "" then 0
    else if s[0] == c then 0
    else
      var i := IndexOf(s[1..], c) + 1;
      assert s[..i] == [s[0]] + s[1..][..i - 1];
      i
  }

  /** `strings.Split(s, ",")`. */
  function SplitCommas(s: string): (parts: seq<string>)
    ensures parts != []
    decreases |s|
  {
    var i := IndexOf(s, ',');
    if i == |s| then [s] else [s[..i]] + SplitCommas(s[i + 1..])
  }

  function JoinCommas(parts: seq<string>): string {
    if parts == [] then ""
    else if |parts| == 1 then parts[0]
    else parts[0] + [','] + JoinCommas(parts[1..])
  }

  ghost predicate CommaFree(parts: seq<string>) {
    forall i :: 0 <= i < |parts| ==> ',' !in parts[i]
  }

  /** A split has parts without commas that, joined by commas, give the text back;
      no other list does. */
  lemma {:induction false} SplitCommasExact(s: string)
    ensures CommaFree(SplitCommas(s)) && JoinCommas(SplitCommas(s)) == s
    decreases |s|
  {
    var i := IndexOf(s, ',');
    if i < |s| {
      SplitCommasExact(s[i + 1..]);
      assert s == s[..i] + [','] + s[i + 1..];
      assert SplitCommas(s)[1..] == SplitCommas(s[i + 1..]);
    }
  }

  lemma {:induction false} NoOtherSplit(parts: seq<string>)
    requires parts != [] && CommaFree(parts)
    ensures SplitCommas(JoinCommas(parts)) == parts
  {
    var s := JoinCommas(parts);
    if |parts| > 1 {
      var tail := [','] + JoinCommas(parts[1..]);
      assert s == parts[0] + tail;
      assert s[|parts[0]|] == ',' && s[..|parts[0]|] == parts[0];
      FirstAt(s, ',', |parts[0]|);
      assert s[|parts[0]| + 1..] == JoinCommas(parts[1..]);
      NoOtherSplit(parts[1..]);
    } else {
      assert s[..|s|] == s;
    }
  }

  lemma {:induction false} FirstAt(s: string, c: char, i: nat)
    requires i < |s| && s[i] == c && c !in s[..i]
    ensures IndexOf(s, c) == i
  {
    if i > 0 {
      assert s[..i] == [s[0]] + s[1..][..i - 1];
      FirstAt(s[1..], c, i - 1);
    }
  }

  function JoinQuoted(parts: seq<string>): string {
    if parts == [] then ""
    else if |parts| == 1 then QuoteMeta(parts[0])
    else QuoteMeta(parts[0]) + "|" + JoinQuoted(parts[1..])
  }

  /** The length of a brace group at the start of p, both braces included, or 0. */
  function GroupLength(p: string): (n: nat)
    requires p != ""
    ensures n <= |p| && (n == 0 || n >= 2)
  {
    var end := IndexOf(p[1..], '}');
    if end == |p[1..]| then 0 else end + 2
  }

  function GroupParts(p: string): seq<string>
    requires p != "" && GroupLength(p) >= 2
  {
    SplitCommas(p[1..GroupLength(p) - 1])
  }

  function EmitChar(c: char, inClass: bool): string {
    if !inClass && c in ".+()|^$" then ['\\', c] else [c]
  }

  /** How many characters of the pattern the next token takes. */
  function TokenLength(p: string): (n: nat)
    requires p != ""
    ensures 1 <= n <= |p|
  {
    if p[0] == '*' && |p| > 1 && p[1] == '*' then 2
    else if p[0] == '{' && GroupLength(p) > 0 then GroupLength(p)
    else 1
  }

  /** What is written for the next token; None for a brace never closed. */
  function TokenText(p: string, inClass: bool): Option<string>
    requires p != ""
  {
    match p[0]
    case '*' => Some(if |p| > 1 && p[1] == '*' then ".*" else "[^/]*")
    case '?' => Some("[^/]")
    case '{' => if GroupLength(p) == 0 then None else Some("(?:" + JoinQuoted(GroupParts(p)) + ")")
    case '[' => Some("[")
    case ']' => Some("]")
    case '\\' => Some("\\\\")
    case c => Some(EmitChar(c, inClass))
  }

  function ClassAfter(p: string, inClass: bool): bool
    requires p != ""
  {
    if p[0] == '[' then true else if p[0] == ']' then false else inClass
  }

  function Prepend(s: string, rest: Option<string>): Option<string> {
    if rest.None? then None else Some(s + rest.value)
  }

  /** The translation of a pattern; None where the code returns an error. */
  function Emit(p: string, inClass: bool): Option<string>
    decreases |p|
  {
    if p == "" then (if inClass then None else Some(""))
    else if TokenText(p, inClass).None? then None
    else Prepend(TokenText(p, inClass).value, Emit(p[TokenLength(p)..], ClassAfter(p, inClass)))
  }

  /** The group at the start of `rest`, as alternatives, and how long it is. */
  method BraceGroup(rest: string) returns (group: Option<string>, length: nat)
    requires rest != "" && rest[0] == '{'
    ensures group == TokenText(rest, false) && length == GroupLength(rest)
  {
    var tail := rest[1..];
    var end := IndexOf(tail, '}');
    if end == |tail| {
      return None, 0;
    }
    assert tail[..end] == rest[1..GroupLength(rest) - 1];
    var text := Alternation(tail[..end]);
    return Some(text), end + 2;
  }

  method GlobToRegex(pattern: string) returns (result: Result<string, GlobError>)
    ensures result.Ok? <==> Emit(pattern, false).Some?
    ensures result.Ok? ==> Emit(pattern, false) == Some(result.value)
    ensures result.Err? ==> result.error == InvalidGlob(pattern)
  {
    var out := "";
    var inClass := false;
    var index := 0;
    assert pattern[0..] == pattern;
    PrependNothing(Emit(pattern, false));
    while index < |pattern|
      invariant 0 <= index <= |pattern|
      invariant Emit(pattern, false) == Prepend(out, Emit(pattern[index..], inClass))
    {
      ghost var rest, class0, out0, index0 := pattern[index..], inClass, out, index;
      var ch := pattern[index];
      if ch == '*' {
        if index + 1 < |pattern| && pattern[index + 1] == '*' {
          out := out + ".*";
          index := index + 1;
        } else {
          out := out + "[^/]*";
        }
      } else if ch == '?' {
        out := out + "[^/]";
      } else if ch == '{' {
        var group, length := BraceGroup(pattern[index..]);
        if group.None? {
          return Err(InvalidGlob(pattern));
        }
        out := out + group.value;
        index := index + length - 1;
      } else if ch == '[' {
        inClass := true;
        out := out + "[";
      } else if ch == ']' {
        inClass := false;
        out := out + "]";
      } else if ch == '\\' {
        out := out + "\\\\";
      } else {
        if !inClass && ch in ".+()|^$" {
          out := out + "\\";
        }
        out := out + [ch];
      }
      index := index + 1;
      assert index == index0 + TokenLength(rest);
      assert out == out0 + TokenText(rest, class0).value;
      assert pattern[index..] == rest[TokenLength(rest)..];
      PrependTwice(out0, TokenText(rest, class0).value, Emit(pattern[index..], inClass));
    }
    if inClass {
      return Err(InvalidGlob(pattern));
    }
    assert out + "" == out;
    return Ok(out);
  }

  lemma PrependNothing(rest: Option<string>)
    ensures Prepend("", rest) == rest
  {
    if rest.Some? {
      assert "" + rest.value == rest.value;
    }
  }

  lemma PrependTwice(a: string, b: string, rest: Option<string>)
    ensures Prepend(a, Prepend(b, rest)) == Prepend(a + b, rest)
  {
    if rest.Some? {
      assert a + (b + rest.value) == (a + b) + rest.value;
    }
  }

  /** What the alternation loop has still to write before part i. */
  function ToWrite(parts: seq<string>, i: nat): string
    requires i <= |parts|
  {
    (if 0 < i < |parts| then "|" else "") + JoinQuoted(parts[i..])
  }

  lemma ToWriteStep(parts: seq<string>, i: nat)
    requires i < |parts|
    ensures ToWrite(parts, i) == (if i > 0 then "|" else "") + (QuoteMeta(parts[i]) + ToWrite(parts, i + 1))
  {
    assert parts[i..][1..] == parts[i + 1..];
  }

  lemma AppendTwice(a: string, b: string, c: string, d: string)
    ensures a + (b + (c + d)) == (if b == "" then a else a + b) + c + d
  {
  }

  /** `(?:` ... `)` around the quoted parts of a group's inside. */
  method Alternation(inside: string) returns (group: string)
    ensures group == "(?:" + JoinQuoted(SplitCommas(inside)) + ")"
  {
    var parts := SplitCommas(inside);
    group := "(?:";
    ghost var whole := group + ToWrite(parts, 0);
    for i := 0 to |parts|
      invariant group + ToWrite(parts, i) == whole
    {
      ToWriteStep(parts, i);
      AppendTwice(group, if i > 0 then "|" else "", QuoteMeta(parts[i]), ToWrite(parts, i + 1));
      if i > 0 {
        group := group + "|";
      }
      group := group + QuoteMeta(parts[i]);
    }
    assert ToWrite(parts, |parts|) == "" && ToWrite(parts, 0) == JoinQuoted(parts);
    group := group + ")";
  }

  method CompileWorkspaceGlob(pattern: string) returns (result: Result<string, GlobError>)
    ensures result.Ok? <==> Emit(pattern, false).Some?
    ensures result.Ok? ==> result.value == "^" + Emit(pattern, false).value + "$"
  {
    var regex := GlobToRegex(pattern);
    if regex.Err? {
      return regex;
    }
    return Ok("^" + regex.value + "$");
  }

  // ------------------------------------------------------------------ what a regex means

  /** The part of RE2 syntax that the translation uses. */
  datatype Node =
    | Literal(c: char)
    | AnyRun          // .*
    | NameRun         // [^/]*
    | NameChar        // [^/]
    | Choice(parts: seq<string>)

  predicate IsMeta(c: char) {
    c in "\\.+*?()|[{^$"
  }

  predicate IsPunctuation(c: char) {
    c in "!\"#$%&'()*+,-./:;<=>?@[\\]^_`{|}~"
  }

  /** Reads literal alternatives up to the closing parenthesis; None on
      anything else that has a meaning in a regex. */
  function ReadChoice(re: string, current: string, before: seq<string>): Option<(seq<string>, string)>
    decreases |re|
  {
    if re == "" then None
    else if re[0] == ')' then Some((before + [current], re[1..]))
    else if re[0] == '|' then ReadChoice(re[1..], "", before + [current])
    else if re[0] == '\\' then
      if |re| >= 2 && IsPunctuation(re[1]) then ReadChoice(re[2..], current + [re[1]], before) else None
    else if IsMeta(re[0]) then None
    else ReadChoice(re[1..], current + [re[0]], before)
  }

  function Cons(n: Node, rest: Option<seq<Node>>): Option<seq<Node>> {
    if rest.None? then None else Some([n] + rest.value)
  }

  /** Reads the body of an anchored regex up to the final `$`. Every operator
      other than those above, a quantifier on anything else included, gives None. */
  function ReadBody(re: string): Option<seq<Node>>
    decreases |re|
  {
    if re == "" then None
    else if re == "$" then Some([])
    else if re[0] == '\\' then
      if |re| >= 2 && IsPunctuation(re[1]) then Cons(Literal(re[1]), ReadBody(re[2..])) else None
    else if "[^/]*" <= re then Cons(NameRun, ReadBody(re[5..]))
    else if "[^/]" <= re then Cons(NameChar, ReadBody(re[4..]))
    else if ".*" <= re then Cons(AnyRun, ReadBody(re[2..]))
    else if "(?:" <= re then
      var choice := ReadChoice(re[3..], "", []);
      if choice.None? || |choice.value.1| >= |re| then None
      else Cons(Choice(choice.value.0), ReadBody(choice.value.1))
    else if IsMeta(re[0]) then None
    else Cons(Literal(re[0]), ReadBody(re[1..]))
  }

  function ReadRegex(re: string): Option<seq<Node>> {
    if re != "" && re[0] == '^' then ReadBody(re[1..]) else None
  }

  /** Does the whole text match? `.` stops at a newline, a negated class does not. */
  ghost predicate Matches(nodes: seq<Node>, text: string)
    decreases |nodes|
  {
    if nodes == [] then text == ""
    else match nodes[0]
      case Literal(c) => text != "" && text[0] == c && Matches(nodes[1..], text[1..])
      case AnyRun => exists k :: 0 <= k <= |text| && '\n' !in text[..k] && Matches(nodes[1..], text[k..])
      case NameRun => exists k :: 0 <= k <= |text| && '/' !in text[..k] && Matches(nodes[1..], text[k..])
      case NameChar => text != "" && text[0] != '/' && Matches(nodes[1..], text[1..])
      case Choice(parts) => exists i :: 0 <= i < |parts| && parts[i] <= text && Matches(nodes[1..], text[|parts[i]|..])
  }

  // ------------------------------------------------------------------ what a glob means

  /** A stretch of a text between commas or ends. */
  ghost predicate Stretch(s: string, front: string, part: string, back: string) {
    && s == front + part + back && ',' !in part
    && (front == "" || front[|front| - 1] == ',') && (back == "" || back[0] == ',')
  }

  /** p starts with a brace group that has `part` as one of its alternatives; `rest`
      is what follows the first closing brace. */
  ghost predicate Alternative(p: string, front: string, part: string, back: string, rest: string) {
    && p == "{" + (front + part + back) + "}" + rest && '}' !in front + part + back
    && Stretch(front + part + back, front, part, back)
  }

  /** The meaning of a glob without character classes, read off the pattern:
      `**` crosses anything but the characters in `stops`. */
  ghost predicate GlobMatch(p: string, path: string, stops: set<char>)
    decreases |p|
  {
    if p == "" then path == ""
    else if p[0] == '*' then
      if |p| > 1 && p[1] == '*'
      then exists k :: 0 <= k <= |path| && (forall c :: c in path[..k] ==> c !in stops) && GlobMatch(p[2..], path[k..], stops)
      else exists k :: 0 <= k <= |path| && '/' !in path[..k] && GlobMatch(p[1..], path[k..], stops)
    else if p[0] == '?' then path != "" && path[0] != '/' && GlobMatch(p[1..], path[1..], stops)
    else if p[0] == '{' then
      exists front, part, back, rest ::
        Alternative(p, front, part, back, rest) && part <= path && GlobMatch(rest, path[|part|..], stops)
    else path != "" && path[0] == p[0] && GlobMatch(p[1..], path[1..], stops)
  }

  // ------------------------------------------------------------------ the two agree

  /** Some bracket outside brace groups opens a character class. */
  predicate HasClass(p: string)
    decreases |p|
  {
    p != "" && (p[0] == '[' || HasClass(p[TokenLength(p)..]))
  }

  function TokenNode(p: string): Node
    requires p != ""
  {
    if p[0] == '*' then (if |p| > 1 && p[1] == '*' then AnyRun else NameRun)
    else if p[0] == '?' then NameChar
    else if p[0] == '{' && GroupLength(p) > 0 then Choice(GroupParts(p))
    else Literal(p[0])
  }

  /** The nodes the emitted regex should have. */
  function Nodes(p: string): seq<Node>
    decreases |p|
  {
    if p == "" then [] else [TokenNode(p)] + Nodes(p[TokenLength(p)..])
  }

  /** Reading on from one text and part reads as much as from another. */
  ghost predicate ReadsSame(re: string, current: string, other: string, part: string, before: seq<string>) {
    ReadChoice(re, current, before) == ReadChoice(other, part, before)
  }

  lemma {:induction false} ReadQuotedChar(c: char, rest: string, current: string, before: seq<string>)
    ensures ReadsSame(QuoteChar(c) + rest, current, rest, current + [c], before)
  {
    var re := QuoteChar(c) + rest;
    assert re[|QuoteChar(c)|..] == rest;
  }

  lemma ReadsOn(a: string, current: string, b: string, next: string, c: string, last: string, before: seq<string>)
    requires ReadsSame(a, current, b, next, before) && ReadsSame(b, next, c, last, before)
    ensures ReadsSame(a, current, c, last, before)
  {
  }

  lemma QuoteMetaHead(part: string, tail: string)
    requires part != ""
    ensures QuoteMeta(part) + tail == QuoteChar(part[0]) + (QuoteMeta(part[1..]) + tail)
  {
  }

  lemma ReadQuotedHead(part: string, tail: string, current: string, whole: string, before: seq<string>)
    requires part != ""
    requires ReadsSame(QuoteMeta(part[1..]) + tail, current + [part[0]], tail, whole, before)
    ensures ReadsSame(QuoteMeta(part) + tail, current, tail, whole, before)
  {
    var rest, next := QuoteMeta(part[1..]) + tail, current + [part[0]];
    QuoteMetaHead(part, tail);
    ReadQuotedChar(part[0], rest, current, before);
    ReadsOn(QuoteChar(part[0]) + rest, current, rest, next, tail, whole, before);
  }

  lemma {:induction false} ReadQuoted(part: string, tail: string, current: string, before: seq<string>)
    ensures ReadsSame(QuoteMeta(part) + tail, current, tail, current + part, before)
    decreases |part|
  {
    if part == "" {
      assert QuoteMeta(part) + tail == tail && current + part == current;
    } else {
      assert current + [part[0]] + part[1..] == current + part;
      ReadQuoted(part[1..], tail, current + [part[0]], before);
      ReadQuotedHead(part, tail, current, current + part, before);
    }
  }

  /** What follows the first alternative. */
  function AfterFirst(parts: seq<string>, tail: string): string
    requires parts != []
  {
    if |parts| == 1 then ")" + tail else "|" + (JoinQuoted(parts[1..]) + ")" + tail)
  }

  lemma FirstAlternative(parts: seq<string>, tail: string)
    requires parts != []
    ensures JoinQuoted(parts) + ")" + tail == QuoteMeta(parts[0]) + AfterFirst(parts, tail)
  {
  }

  lemma {:induction false} ReadJoined(parts: seq<string>, tail: string, before: seq<string>)
    requires parts != []
    ensures ReadChoice(JoinQuoted(parts) + ")" + tail, "", before) == Some((before + parts, tail))
    decreases |parts|
  {
    var next := AfterFirst(parts, tail);
    FirstAlternative(parts, tail);
    ReadQuoted(parts[0], next, "", before);
    assert "" + parts[0] == parts[0];
    if |parts| == 1 {
      assert next[1..] == tail;
      assert before + [parts[0]] == before + parts;
    } else {
      assert next[1..] == JoinQuoted(parts[1..]) + ")" + tail;
      ReadJoined(parts[1..], tail, before + [parts[0]]);
      assert before + [parts[0]] + parts[1..] == before + parts;
    }
  }

  lemma ReadOpened(inner: string, parts: seq<string>, after: string)
    requires ReadChoice(inner, "", []) == Some((parts, after)) && |after| <= |inner|
    ensures ReadBody("(?:" + inner) == Cons(Choice(parts), ReadBody(after))
  {
    var re := "(?:" + inner;
    assert re[3..] == inner && re[0] == '(';
    assert "[^/]*"[0] == "[^/]"[0] == '[' && ".*"[0] == '.';
  }

  lemma ReadGroup(parts: seq<string>, after: string)
    requires parts != []
    ensures ReadBody("(?:" + JoinQuoted(parts) + ")" + after) == Cons(Choice(parts), ReadBody(after))
  {
    var inner := JoinQuoted(parts) + ")" + after;
    assert "(?:" + JoinQuoted(parts) + ")" + after == "(?:" + inner;
    ReadJoined(parts, after, []);
    assert [] + parts == parts;
    ReadOpened(inner, parts, after);
  }

  lemma {:induction false} ReadSimple(c: char, after: string)
    requires c !in "*?{[\\" && after != "" && after[0] != '*'
    ensures ReadBody(EmitChar(c, false) + after) == Cons(Literal(c), ReadBody(after))
  {
    var text := EmitChar(c, false);
    var re := text + after;
    assert re[|text|..] == after;
    assert forall start: string :: start != "" && start <= re ==> start[0] == re[0];
    if c in ".+()|^$" {
      assert re[0] == '\\' && re[1] == c;
    } else {
      assert re[0] == c && re[1..] == after;
      assert "[^/]*"[0] == "[^/]"[0] == '[' && ".*"[0] == '.' && "(?:"[0] == '(';
    }
  }

  /** One token's text, followed by anything that does not start with a star,
      reads back as that token. */
  lemma {:induction false} ReadToken(p: string, after: string)
    requires p != "" && p[0] != '[' && TokenText(p, false).Some? && after != "" && after[0] != '*'
    ensures ReadBody(TokenText(p, false).value + after) == Cons(TokenNode(p), ReadBody(after))
  {
    var text := TokenText(p, false).value;
    if p[0] == '{' {
      ReadGroup(GroupParts(p), after);
    } else if p[0] in "*?\\" {
      assert (text + after)[|text|..] == after;
    } else {
      ReadSimple(p[0], after);
    }
  }

  lemma NoLeadingStar(p: string)
    requires Emit(p, false).Some?
    ensures (Emit(p, false).value + "$")[0] != '*'
  {
  }

  /** The emitted text read back as a regex is exactly the intended nodes: no
      escaping slip turns a literal into an operator or back. */
  lemma {:induction false} EmissionReadsBack(p: string)
    requires !HasClass(p) && Emit(p, false).Some?
    ensures ReadBody(Emit(p, false).value + "$") == Some(Nodes(p))
    decreases |p|
  {
    if p == "" {
      assert Emit(p, false).value + "$" == "$";
    } else {
      var rest := p[TokenLength(p)..];
      var after := Emit(rest, false).value + "$";
      EmissionReadsBack(rest);
      NoLeadingStar(rest);
      ReadToken(p, after);
      assert Emit(p, false).value + "$" == TokenText(p, false).value + after;
    }
  }

  /** The nodes mean what the glob means. */
  lemma {:induction false} NodesMeanGlob(p: string, path: string)
    requires !HasClass(p) && Emit(p, false).Some?
    ensures Matches(Nodes(p), path) <==> GlobMatch(p, path, {'\n'})
    decreases |p|
  {
    if p != "" {
      var rest := p[TokenLength(p)..];
      assert Nodes(p)[1..] == Nodes(rest);
      forall tail: string ensures Matches(Nodes(rest), tail) <==> GlobMatch(rest, tail, {'\n'}) {
        NodesMeanGlob(rest, tail);
      }
      TokenMeans(p, path);
    }
  }

  /** Nodes and glob agree on what is left after the first token. */
  ghost predicate RestAgrees(p: string)
    requires p != ""
  {
    forall tail: string ::
      Matches(Nodes(p[TokenLength(p)..]), tail) <==> GlobMatch(p[TokenLength(p)..], tail, {'\n'})
  }

  lemma {:induction false} StarsMean(p: string, path: string)
    requires p != "" && p[0] == '*' && RestAgrees(p)
    ensures Matches(Nodes(p), path) <==> GlobMatch(p, path, {'\n'})
  {
    assert Nodes(p)[1..] == Nodes(p[TokenLength(p)..]);
    if TokenNode(p) == AnyRun {
      assert forall k :: 0 <= k <= |path| ==>
          ('\n' !in path[..k] <==> forall c :: c in path[..k] ==> c !in {'\n'});
    }
  }

  lemma NoneAt(s: string, c: char)
    requires c !in s
    ensures IndexOf(s, c) == |s|
  {
  }

  /** The parts of a split are the stretches between commas. */
  lemma FirstPart(s: string, part: string, back: string)
    requires s == part + back && ',' !in part && (back == "" || back[0] == ',')
    ensures SplitCommas(s)[0] == part
  {
    assert s[..|part|] == part;
    if back == "" {
      assert s == part;
      NoneAt(s, ',');
    } else {
      FirstAt(s, ',', |part|);
    }
  }

  lemma {:induction false} IndexAtMost(s: string, c: char, j: nat)
    requires j < |s| && s[j] == c
    ensures IndexOf(s, c) <= j
  {
    if j > 0 {
      IndexAtMost(s[1..], c, j - 1);
    }
  }

  lemma LaterStretch(s: string, front: string, part: string, back: string)
    requires Stretch(s, front, part, back) && front != ""
    ensures var i := IndexOf(s, ','); i < |front| && Stretch(s[i + 1..], front[i + 1..], part, back)
  {
    IndexAtMost(s, ',', |front| - 1);
    var i := IndexOf(s, ',');
    assert s[i + 1..] == front[i + 1..] + part + back;
  }

  lemma LaterPart(s: string, part: string)
    requires IndexOf(s, ',') < |s| && part in SplitCommas(s[IndexOf(s, ',') + 1..])
    ensures part in SplitCommas(s)
  {
  }

  lemma {:induction false} StretchIsPart(s: string, front: string, part: string, back: string)
    requires Stretch(s, front, part, back)
    ensures part in SplitCommas(s)
    decreases |s|
  {
    if front == "" {
      assert s == part + back;
      FirstPart(s, part, back);
    } else {
      LaterStretch(s, front, part, back);
      StretchIsPart(s[IndexOf(s, ',') + 1..], front[IndexOf(s, ',') + 1..], part, back);
      LaterPart(s, part);
    }
  }

  lemma FirstIs(s: string)
    ensures SplitCommas(s)[0] == s[..IndexOf(s, ',')] && Stretch(s, "", s[..IndexOf(s, ',')], s[IndexOf(s, ',')..])
  {
    var i := IndexOf(s, ',');
    assert s == "" + s[..i] + s[i..];
  }

  lemma {:induction false} PartAt(s: string, k: nat)
    requires 0 < k < |SplitCommas(s)|
    ensures var i := IndexOf(s, ',');
            i < |s| && k - 1 < |SplitCommas(s[i + 1..])| && SplitCommas(s)[k] == SplitCommas(s[i + 1..])[k - 1]
  {
    var i := IndexOf(s, ',');
    assert SplitCommas(s) == [s[..i]] + if i == |s| then [] else SplitCommas(s[i + 1..]);
  }

  lemma {:induction false} PartIsStretch(s: string, k: nat) returns (front: string, part: string, back: string)
    requires k < |SplitCommas(s)|
    ensures Stretch(s, front, part, back) && part == SplitCommas(s)[k]
    decreases |s|
  {
    var i := IndexOf(s, ',');
    if k == 0 {
      FirstIs(s);
      front, part, back := "", s[..i], s[i..];
    } else {
      PartAt(s, k);
      front, part, back := PartIsStretch(s[i + 1..], k - 1);
      LongerFront(s, i, front, part, back);
      front := s[..i + 1] + front;
    }
  }

  lemma LongerFront(s: string, i: nat, front: string, part: string, back: string)
    requires i < |s| && s[i] == ',' && Stretch(s[i + 1..], front, part, back)
    ensures Stretch(s, s[..i + 1] + front, part, back)
  {
    assert s == s[..i + 1] + s[i + 1..];
  }

  lemma ClosingBrace(inside: string, rest: string)
    requires '}' !in inside
    ensures var p := "{" + inside + "}" + rest;
            GroupLength(p) == |inside| + 2 && p[1..|inside| + 1] == inside && p[|inside| + 2..] == rest
  {
    var p := "{" + inside + "}" + rest;
    assert p[1..] == inside + "}" + rest;
    assert p[1..][..|inside|] == inside;
    FirstAt(p[1..], '}', |inside|);
  }

  lemma GroupText(p: string)
    requires p != "" && p[0] == '{' && GroupLength(p) >= 2
    ensures var n := GroupLength(p); p == "{" + p[1..n - 1] + "}" + p[n..] && '}' !in p[1..n - 1]
  {
    var n := GroupLength(p);
    assert p[1..][..n - 2] == p[1..n - 1];
    assert p[n - 1] == '}';
  }

  /** The alternatives read off the pattern are the parts of the split. */
  lemma AlternativeIsPart(p: string, front: string, part: string, back: string, rest: string)
    requires Alternative(p, front, part, back, rest)
    ensures p != "" && p[0] == '{' && GroupLength(p) >= 2 && part in GroupParts(p) && p[GroupLength(p)..] == rest
  {
    ClosingBrace(front + part + back, rest);
    StretchIsPart(front + part + back, front, part, back);
  }

  lemma PartIsAlternative(p: string, k: nat) returns (front: string, part: string, back: string)
    requires p != "" && p[0] == '{' && GroupLength(p) >= 2 && k < |GroupParts(p)|
    ensures Alternative(p, front, part, back, p[GroupLength(p)..]) && part == GroupParts(p)[k]
  {
    GroupText(p);
    front, part, back := PartIsStretch(p[1..GroupLength(p) - 1], k);
  }

  lemma GlobGroup(p: string, path: string, front: string, part: string, back: string, rest: string, stops: set<char>)
    requires Alternative(p, front, part, back, rest) && part <= path && GlobMatch(rest, path[|part|..], stops)
    ensures GlobMatch(p, path, stops)
  {
  }

  lemma ChoiceTakes(p: string, path: string, part: string)
    requires p != "" && p[0] == '{' && GroupLength(p) >= 2 && part in GroupParts(p) && part <= path
    requires Matches(Nodes(p[GroupLength(p)..]), path[|part|..])
    ensures Matches(Nodes(p), path)
  {
    var parts, rest := GroupParts(p), Nodes(p[GroupLength(p)..]);
    assert Nodes(p) == [Choice(parts)] + rest;
    var i :| 0 <= i < |parts| && parts[i] == part;
    assert Nodes(p)[1..] == rest;
  }

  lemma AgreesAt(p: string, tail: string)
    requires p != "" && RestAgrees(p)
    ensures Matches(Nodes(p[TokenLength(p)..]), tail) <==> GlobMatch(p[TokenLength(p)..], tail, {'\n'})
  {
  }

  lemma GlobChooses(p: string, path: string)
    requires p != "" && p[0] == '{' && RestAgrees(p) && GlobMatch(p, path, {'\n'})
    ensures Matches(Nodes(p), path)
  {
    var front, part, back, rest :|
      Alternative(p, front, part, back, rest) && part <= path && GlobMatch(rest, path[|part|..], {'\n'});
    AlternativeIsPart(p, front, part, back, rest);
    AgreesAt(p, path[|part|..]);
    ChoiceTakes(p, path, part);
  }

  lemma ChoiceIsGlob(p: string, path: string)
    requires p != "" && p[0] == '{' && GroupLength(p) >= 2 && RestAgrees(p) && Matches(Nodes(p), path)
    ensures GlobMatch(p, path, {'\n'})
  {
    var k := ChosenPart(p, path);
    var front, part, back := PartIsAlternative(p, k);
    AgreesAt(p, path[|part|..]);
    GlobGroup(p, path, front, part, back, p[GroupLength(p)..], {'\n'});
  }

  lemma ChosenPart(p: string, path: string) returns (k: nat)
    requires p != "" && p[0] == '{' && GroupLength(p) >= 2 && Matches(Nodes(p), path)
    ensures k < |GroupParts(p)| && GroupParts(p)[k] <= path
    ensures Matches(Nodes(p[GroupLength(p)..]), path[|GroupParts(p)[k]|..])
  {
    var parts, rest := GroupParts(p), Nodes(p[GroupLength(p)..]);
    assert Nodes(p) == [Choice(parts)] + rest;
    assert Nodes(p)[1..] == rest;
    k :| 0 <= k < |parts| && parts[k] <= path && Matches(rest, path[|parts[k]|..]);
  }

  lemma GroupMeans(p: string, path: string)
    requires p != "" && p[0] == '{' && GroupLength(p) >= 2 && RestAgrees(p)
    ensures Matches(Nodes(p), path) <==> GlobMatch(p, path, {'\n'})
  {
    if GlobMatch(p, path, {'\n'}) {
      GlobChooses(p, path);
    }
    if Matches(Nodes(p), path) {
      ChoiceIsGlob(p, path);
    }
  }

  lemma {:induction false} TokenMeans(p: string, path: string)
    requires p != "" && p[0] != '[' && TokenText(p, false).Some? && RestAgrees(p)
    ensures Matches(Nodes(p), path) <==> GlobMatch(p, path, {'\n'})
  {
    assert Nodes(p)[1..] == Nodes(p[TokenLength(p)..]);
    if p[0] == '*' {
      StarsMean(p, path);
    } else if p[0] == '{' {
      GroupMeans(p, path);
    }
  }

  /** Compiling preserves meaning: for every accepted pattern without a
      character class, the anchored regex has only the operators intended, and
      it matches exactly the paths the glob does, where `**` stops at a newline. */
  lemma CompiledGlobMeansGlob(pattern: string)
    requires !HasClass(pattern) && Emit(pattern, false).Some?
    ensures var nodes := ReadRegex("^" + Emit(pattern, false).value + "$");
            nodes.Some? && forall path: string :: Matches(nodes.value, path) <==> GlobMatch(pattern, path, {'\n'})
  {
    var body := Emit(pattern, false).value + "$";
    assert "^" + Emit(pattern, false).value + "$" == "^" + body;
    assert ("^" + body)[1..] == body;
    EmissionReadsBack(pattern);
    forall path: string ensures Matches(Nodes(pattern), path) <==> GlobMatch(pattern, path, {'\n'}) {
      NodesMeanGlob(pattern, path);
    }
  }

  /** On a path without newlines that is the plain meaning of the glob. */
  lemma {:induction false} NewlineFreeIsPlain(p: string, path: string)
    requires '\n' !in path
    ensures GlobMatch(p, path, {'\n'}) <==> GlobMatch(p, path, {})
    decreases |p|
  {
    if p != "" && p[0] != '{' {
      forall k | 0 <= k <= |path|
        ensures GlobMatch(p[TokenLength(p)..], path[k..], {'\n'}) <==> GlobMatch(p[TokenLength(p)..], path[k..], {})
      {
        NewlineFreeIsPlain(p[TokenLength(p)..], path[k..]);
      }
    } else if p != "" {
      forall rest: string, k | |rest| < |p| && 0 <= k <= |path|
        ensures GlobMatch(rest, path[k..], {'\n'}) <==> GlobMatch(rest, path[k..], {})
      {
        NewlineFreeIsPlain(rest, path[k..]);
      }
    }
  }

  /** Inside a class plain characters are written as they are. */
  lemma ClassStep(c: char, p: string)
    requires c !in "*?{[]\\"
    ensures Emit([c] + p, true) == Prepend([c], Emit(p, true))
  {
    assert ([c] + p)[1..] == p;
  }

  lemma ClassEnd(rest: string)
    ensures Emit("]" + rest, true) == Prepend("]", Emit(rest, false))
  {
    assert ("]" + rest)[1..] == rest;
  }

  lemma {:induction false} ClassInside(inner: string, rest: string)
    requires forall c :: c in inner ==> c !in "*?{[]\\"
    ensures Emit(inner + "]" + rest, true) == Prepend(inner + "]", Emit(rest, false))
    decreases |inner|
  {
    if inner == "" {
      ClassEnd(rest);
      assert inner + "]" + rest == "]" + rest && inner + "]" == "]";
    } else {
      var c, more := inner[0], inner[1..];
      ClassInside(more, rest);
      ClassStep(c, more + "]" + rest);
      PrependTwice([c], more + "]", Emit(rest, false));
      assert [c] + (more + "]") == inner + "]" && [c] + (more + "]" + rest) == inner + "]" + rest;
    }
  }

  lemma ClassIsVerbatim(inner: string, rest: string)
    requires forall c :: c in inner ==> c !in "*?{[]\\"
    ensures Emit("[" + inner + "]" + rest, false) == Prepend("[" + inner + "]", Emit(rest, false))
  {
    var p := "[" + inner + "]" + rest;
    assert p[1..] == inner + "]" + rest;
    ClassInside(inner, rest);
    PrependTwice("[", inner + "]", Emit(rest, false));
    assert "[" + (inner + "]") == "[" + inner + "]";
  }

  /** The brace at i has no closing brace after it. */
  predicate UnclosedAt(p: string, i: nat) {
    i < |p| && p[i] == '{' && '}' !in p[i + 1..]
  }

  /** Some brace has none. */
  ghost predicate UnclosedBrace(p: string) {
    exists i: nat :: UnclosedAt(p, i)
  }

  /** The last bracket outside brace groups opens a class. */
  predicate LeftInClass(p: string, inClass: bool)
    decreases |p|
  {
    if p == "" then inClass else LeftInClass(p[TokenLength(p)..], ClassAfter(p, inClass))
  }

  /** Inside a group a closing brace still follows. */
  lemma StillCloses(p: string, i: nat)
    requires p != "" && i < |p|
    ensures p[0] == '{' && i < GroupLength(p) - 1 ==> '}' in p[i + 1..]
    ensures p[0] == '{' && i == GroupLength(p) - 1 ==> p[i] == '}'
  {
    var n := GroupLength(p);
    if p[0] == '{' && i < n - 1 {
      assert p[i + 1..][n - 2 - i] == p[n - 1] == '}';
    }
  }

  lemma UnclosedShifts(p: string, n: nat, i: nat)
    requires n <= i < |p|
    ensures UnclosedAt(p, i) <==> UnclosedAt(p[n..], i - n)
  {
    assert p[n..][i - n] == p[i] && p[n..][i - n + 1..] == p[i + 1..];
  }

  lemma UnclosedPastToken(p: string, i: nat)
    requires p != "" && (p[0] == '{' ==> GroupLength(p) > 0) && UnclosedAt(p, i)
    ensures TokenLength(p) <= i
  {
    StillCloses(p, i);
  }

  lemma UnclosedLater(p: string)
    requires p != "" && (p[0] == '{' ==> GroupLength(p) > 0)
    ensures UnclosedBrace(p) <==> UnclosedBrace(p[TokenLength(p)..])
  {
    var n := TokenLength(p);
    if i: nat :| UnclosedAt(p, i) {
      UnclosedPastToken(p, i);
      UnclosedShifts(p, n, i);
    }
    if i: nat :| UnclosedAt(p[n..], i) {
      UnclosedShifts(p, n, n + i);
    }
  }

  /** A pattern is refused exactly when some brace has no closing brace after it
      or a class is left open. */
  lemma {:induction false} RefusedExactly(p: string, inClass: bool)
    ensures Emit(p, inClass).None? <==> UnclosedBrace(p) || LeftInClass(p, inClass)
    decreases |p|
  {
    if p != "" {
      if p[0] == '{' && GroupLength(p) == 0 {
        assert UnclosedAt(p, 0);
      } else {
        UnclosedLater(p);
        RefusedExactly(p[TokenLength(p)..], ClassAfter(p, inClass));
      }
    }
  }
}
