/** Quoting one argument for a POSIX shell (`shellQuoteCLI`), against a reader
    that follows the quoting rules of the POSIX Shell Command Language. */
module ShellQuoting {
  import opened Common

  /** Every single quote becomes quote, double-quoted quote, quote. */
  function ReplaceQuotes(s: string): string {
    if s == "" then "" else (if s[0] == '\'' then "'\"'\"'" else [s[0]]) + ReplaceQuotes(s[1..])
  }

  function ShellQuoteCLI(value: string): string {
    if value == "" then "''" else "'" + ReplaceQuotes(value) + "'"
  }

  // ------------------------------------------------------------------ reading words

  datatype Mode = Plain | Single | Double

  /** Characters with a meaning of their own outside quotes, and NUL. */
  predicate IsSpecial(c: char) {
    c in "|&;<>()$`\\\"'*?[#~=%!{}\n" || c == '\0'
  }

  /** Reads a line as words: blanks separate; single quotes (section 2.2.2) keep
      every character; double quotes (section 2.2.3) keep all but `$`, backquote
      and backslash. None for an open quote, or anything that would need more of
      the shell than quoting. `word` is the word being read, if any. */
  function Read(s: string, mode: Mode, word: Option<string>, words: seq<string>): Option<seq<string>>
    decreases |s|
  {
    if s == "" then (if mode.Plain? then Some(Finished(word, words)) else None)
    else
      var c, rest := s[0], s[1..];
      match mode
      case Plain =>
        if c == ' ' || c == '\t' then Read(rest, Plain, None, Finished(word, words))
        else if c == '\'' then Read(rest, Single, Some(Begun(word)), words)
        else if c == '"' then Read(rest, Double, Some(Begun(word)), words)
        else if IsSpecial(c) then None
        else Read(rest, Plain, Some(Begun(word) + [c]), words)
      case Single =>
        if c == '\0' then None
        else if c == '\'' then Read(rest, Plain, word, words)
        else Read(rest, Single, Some(Begun(word) + [c]), words)
      case Double =>
        if c == '"' then Read(rest, Plain, word, words)
        else if c in "$`\\" || c == '\0' then None
        else Read(rest, Double, Some(Begun(word) + [c]), words)
  }

  function Begun(word: Option<string>): string {
    if word.Some? then word.value else ""
  }

  function Finished(word: Option<string>, words: seq<string>): seq<string> {
    if word.Some? then words + [word.value] else words
  }

  function ReadWords(s: string): Option<seq<string>> {
    Read(s, Plain, None, [])
  }

  // ------------------------------------------------------------------ round trip

  /** Inside single quotes the replaced text reads back as the original. */
  lemma {:induction false} ReadReplaced(s: string, tail: string, word: string, words: seq<string>)
    requires '\0' !in s
    ensures Read(ReplaceQuotes(s) + tail, Single, Some(word), words) == Read(tail, Single, Some(word + s), words)
    decreases |s|
  {
    if s == "" {
      assert ReplaceQuotes(s) + tail == tail && word + s == word;
    } else {
      var rest := ReplaceQuotes(s[1..]) + tail;
      ReadReplaced(s[1..], tail, word + [s[0]], words);
      assert word + [s[0]] + s[1..] == word + s;
      if s[0] == '\'' {
        assert ReplaceQuotes(s) + tail == "'\"'\"'" + rest;
        QuoteSequence(rest, word, words);
      } else {
        assert ReplaceQuotes(s) + tail == [s[0]] + rest;
        assert ([s[0]] + rest)[1..] == rest;
      }
    }
  }

  lemma QuoteSequence(rest: string, word: string, words: seq<string>)
    ensures Read("'\"'\"'" + rest, Single, Some(word), words) == Read(rest, Single, Some(word + "'"), words)
  {
    var s := "'\"'\"'" + rest;
    assert s[1..] == "\"'\"'" + rest;
    assert s[1..][1..] == "'\"'" + rest;
    assert s[1..][1..][1..] == "\"'" + rest;
    assert s[1..][1..][1..][1..] == "'" + rest;
    assert s[1..][1..][1..][1..][1..] == rest;
    assert Read("'" + rest, Plain, Some(word + "'"), words) == Read(rest, Single, Some(word + "'"), words);
    assert Read("\"'" + rest, Double, Some(word + "'"), words) == Read("'" + rest, Plain, Some(word + "'"), words);
    assert Read("'\"'" + rest, Double, Some(word), words) == Read("\"'" + rest, Double, Some(word + "'"), words);
  }

  /** A quoted argument, whatever follows it, is read as exactly that argument. */
  lemma ReadQuoted(s: string, tail: string, words: seq<string>)
    requires '\0' !in s
    ensures Read(ShellQuoteCLI(s) + tail, Plain, None, words) == Read(tail, Plain, Some(s), words)
  {
    var inner := ReplaceQuotes(s) + ("'" + tail);
    assert ShellQuoteCLI(s) + tail == "'" + inner;
    assert ("'" + inner)[1..] == inner;
    ReadReplaced(s, "'" + tail, "", words);
    assert "" + s == s;
    assert ("'" + tail)[1..] == tail;
  }

  /** Round trip: one word, equal to the argument. */
  lemma QuoteRoundTrip(s: string)
    requires '\0' !in s
    ensures ReadWords(ShellQuoteCLI(s)) == Some([s])
  {
    ReadQuoted(s, "", []);
    assert ShellQuoteCLI(s) + "" == ShellQuoteCLI(s);
    assert [] + [s] == [s];
  }

  lemma QuoteIsInjective(s: string, t: string)
    requires '\0' !in s && '\0' !in t && ShellQuoteCLI(s) == ShellQuoteCLI(t)
    ensures s == t
  {
    QuoteRoundTrip(s);
    QuoteRoundTrip(t);
  }

  function QuoteAll(args: seq<string>): string {
    if args == [] then ""
    else if |args| == 1 then ShellQuoteCLI(args[0])
    else ShellQuoteCLI(args[0]) + " " + QuoteAll(args[1..])
  }

  lemma ReadLastArgument(s: string, words: seq<string>)
    requires '\0' !in s
    ensures Read(ShellQuoteCLI(s), Plain, None, words) == Some(words + [s])
  {
    ReadQuoted(s, "", words);
    assert ShellQuoteCLI(s) + "" == ShellQuoteCLI(s);
  }

  lemma ReadArgumentAndBlank(s: string, rest: string, words: seq<string>)
    requires '\0' !in s
    ensures Read(ShellQuoteCLI(s) + " " + rest, Plain, None, words) == Read(rest, Plain, None, words + [s])
  {
    var tail := " " + rest;
    ReadQuoted(s, tail, words);
    assert ShellQuoteCLI(s) + " " + rest == ShellQuoteCLI(s) + tail;
    assert tail[0] == ' ' && tail[1..] == rest;
  }

  /** A command line of quoted arguments reads back as the list of arguments. */
  lemma {:induction false} QuotedLineRoundTrip(args: seq<string>, words: seq<string>)
    requires forall i :: 0 <= i < |args| ==> '\0' !in args[i]
    ensures Read(QuoteAll(args), Plain, None, words) == Some(words + args)
    decreases |args|
  {
    if args == [] {
      assert words + args == words;
    } else {
      var first, others := args[0], args[1..];
      assert words + [first] + others == words + args;
      if others == [] {
        ReadLastArgument(first, words);
        assert words + [first] == words + args;
      } else {
        ReadArgumentAndBlank(first, QuoteAll(others), words);
        QuotedLineRoundTrip(others, words + [first]);
      }
    }
  }

  lemma {:induction false} QuotingAddsNoNul(s: string)
    requires '\0' !in s
    ensures '\0' !in ShellQuoteCLI(s)
  {
    ReplacingAddsNoNul(s);
  }

  lemma {:induction false} ReplacingAddsNoNul(s: string)
    requires '\0' !in s
    ensures '\0' !in ReplaceQuotes(s)
  {
    if s != "" {
      ReplacingAddsNoNul(s[1..]);
    }
  }

  function QuoteTimes(s: string, n: nat): string {
    if n == 0 then s else ShellQuoteCLI(QuoteTimes(s, n - 1))
  }

  function UnquoteTimes(s: string, n: nat): Option<string>
    decreases n
  {
    if n == 0 then Some(s)
    else
      var words := ReadWords(s);
      if words.Some? && |words.value| == 1 then UnquoteTimes(words.value[0], n - 1) else None
  }

  /** Nested quoting undoes layer by layer, to any depth. */
  lemma {:induction false} NestedRoundTrip(s: string, n: nat)
    requires '\0' !in s
    ensures '\0' !in QuoteTimes(s, n)
    ensures UnquoteTimes(QuoteTimes(s, n), n) == Some(s)
  {
    if n > 0 {
      NestedRoundTrip(s, n - 1);
      QuotingAddsNoNul(QuoteTimes(s, n - 1));
      QuoteRoundTrip(QuoteTimes(s, n - 1));
    }
  }
}
