/** Byte-limited truncation of UTF-8 text (`truncateUTF8StringToBytes`). A valid
    UTF-8 string is its sequence of runes, each one to four bytes wide. */
module Truncation {

  /** Bytes of a rune in UTF-8 (section 3 of RFC 3629). */
  function Width(c: char): (w: nat)
    ensures 1 <= w <= 4
  {
    if (c as int) < 0x80 then 1 else if (c as int) < 0x800 then 2 else if (c as int) < 0x1_0000 then 3 else 4
  }

  function Bytes(s: string): nat {
    if s == "" then 0 else Bytes(s[..|s| - 1]) + Width(s[|s| - 1])
  }

  /** How many of the first k runes' bytes there are: where rune k starts. */
  function Start(s: string, k: nat): nat
    requires k <= |s|
  {
    Bytes(s[..k])
  }

  lemma StartStep(s: string, k: nat)
    requires k < |s|
    ensures Start(s, k + 1) == Start(s, k) + Width(s[k])
  {
    assert s[..k + 1][..k] == s[..k];
  }

  lemma {:induction false} StartGrows(s: string, j: nat, k: nat)
    requires j <= k <= |s|
    ensures Start(s, j) + (k - j) <= Start(s, k)
    decreases k - j
  {
    if j < k {
      StartStep(s, k - 1);
      StartGrows(s, j, k - 1);
    }
  }

  /** The first rune start beyond the limit, or the end of the string. */
  function FirstOver(s: string, limit: nat, from: nat): (k: nat)
    requires from <= |s|
    ensures from <= k <= |s|
    decreases |s| - from
  {
    if from == |s| || Start(s, from) > limit then from else FirstOver(s, limit, from + 1)
  }

  lemma {:induction false} FirstOverIsFirst(s: string, limit: nat, from: nat)
    requires from <= |s|
    ensures forall j :: from <= j < FirstOver(s, limit, from) ==> Start(s, j) <= limit
    ensures FirstOver(s, limit, from) < |s| ==> Start(s, FirstOver(s, limit, from)) > limit
    decreases |s| - from
  {
    if from < |s| && Start(s, from) <= limit {
      FirstOverIsFirst(s, limit, from + 1);
    }
  }

  /** The number of runes kept of a string longer than the limit: the loop looks
      at the previous rune start, so it stops one rune late, unless the string
      ends first. */
  function Kept(s: string, limit: nat): nat
    requires Bytes(s) > limit
  {
    var k := FirstOver(s, limit, 0);
    if k + 1 < |s| then k + 1 else if k == 0 then 0 else k - 1
  }

  method TruncateUTF8StringToBytes(value: string, maxBytes: int) returns (cut: string, truncated: bool)
    ensures cut <= value
    ensures truncated <==> Bytes(value) > (if maxBytes > 0 then maxBytes else 0)
    ensures maxBytes <= 0 ==> cut == ""
    ensures maxBytes > 0 && !truncated ==> cut == value
    ensures maxBytes > 0 && truncated ==> |cut| == Kept(value, maxBytes)
  {
    if maxBytes <= 0 {
      if value != "" {
        StartGrows(value, 0, |value|);
        assert value[..|value|] == value;
      }
      return "", |value| > 0;
    }
    assert value[..|value|] == value;
    if Bytes(value) <= maxBytes {
      return value, false;
    }
    var size, index := 0, 0;
    FirstOverIsFirst(value, maxBytes, 0);
    for i := 0 to |value|
      invariant index == Start(value, i)
      invariant size == if i == 0 then 0 else Start(value, i - 1)
      invariant forall j :: 0 <= j < i - 1 ==> Start(value, j) <= maxBytes
    {
      if size > maxBytes {
        return value[..i], true;
      }
      size := index;
      StartStep(value, i);
      index := index + Width(value[i]);
    }
    cut := value;
    while |cut| > 0 && Bytes(cut) > maxBytes
      invariant cut <= value
      invariant |cut| < |value| ==> Start(value, |cut| + 1) > maxBytes
      decreases |cut|
    {
      assert cut == value[..|cut|];
      cut := cut[..|cut| - 1];
    }
    assert cut == value[..|cut|];
    DroppedToFit(value, maxBytes, |cut|);
    truncated := true;
  }

  lemma FirstOverIsLate(s: string, limit: nat)
    requires s != "" && forall j :: 0 <= j < |s| - 1 ==> Start(s, j) <= limit
    ensures FirstOver(s, limit, 0) >= |s| - 1
  {
    FirstOverIsFirst(s, limit, 0);
  }

  /** With the first start over the limit at the last rune or the end, one cut is left. */
  lemma OneCutLeft(s: string, limit: nat, n: nat, k: nat)
    requires n < |s| && |s| - 1 <= k <= |s|
    requires (Start(s, n) <= limit || n == 0) && Start(s, n + 1) > limit && n + 1 >= |s| - 1
    requires if k < |s| then Start(s, k) > limit else Start(s, |s| - 1) <= limit
    ensures n == if k == 0 then 0 else k - 1
  {
  }

  lemma DroppedToFit(s: string, limit: nat, n: nat)
    requires Bytes(s) > limit && n < |s|
    requires forall j :: 0 <= j < |s| - 1 ==> Start(s, j) <= limit
    requires Start(s, n) <= limit || n == 0
    requires Start(s, n + 1) > limit
    ensures n == Kept(s, limit)
  {
    FirstOverIsFirst(s, limit, 0);
    FirstOverIsLate(s, limit);
    OneCutLeft(s, limit, n, FirstOver(s, limit, 0));
  }

  /** The overshoot is at most two runes, eight bytes. */
  lemma KeptWithinEight(s: string, limit: nat)
    requires limit > 0 && Bytes(s) > limit
    ensures Kept(s, limit) < |s|
    ensures Start(s, Kept(s, limit)) <= limit + 8
  {
    var k := FirstOver(s, limit, 0);
    FirstOverIsFirst(s, limit, 0);
    assert s[..|s|] == s;
    if k + 1 < |s| {
      StartStep(s, k);
      StartStep(s, k - 1);
    }
  }

  /** The result respects the limit exactly when the string without its last
      two runes does; then it is the longest prefix that fits. */
  lemma KeptFitsExactly(s: string, limit: nat)
    requires limit > 0 && Bytes(s) > limit
    ensures Start(s, Kept(s, limit)) <= limit <==> (|s| < 2 || Start(s, |s| - 2) <= limit)
    ensures Start(s, Kept(s, limit)) <= limit ==> Start(s, Kept(s, limit) + 1) > limit
  {
    var k := FirstOver(s, limit, 0);
    FirstOverIsFirst(s, limit, 0);
    if k + 1 < |s| {
      LateCutOverflows(s, limit, k);
    } else {
      EarlyCutFits(s, limit, k);
    }
  }

  lemma LateCutOverflows(s: string, limit: nat, k: nat)
    requires k + 1 < |s| && Start(s, k) > limit
    ensures Start(s, k + 1) > limit && Start(s, |s| - 2) > limit
  {
    StartGrows(s, k, k + 1);
    StartGrows(s, k, |s| - 2);
  }

  lemma EarlyCutFits(s: string, limit: nat, k: nat)
    requires limit > 0 && Bytes(s) > limit && k <= |s| <= k + 1
    requires forall j :: 0 <= j < k ==> Start(s, j) <= limit
    requires k < |s| ==> Start(s, k) > limit
    ensures var n := if k == 0 then 0 else k - 1;
            && n < |s| && Start(s, n) <= limit && Start(s, n + 1) > limit
            && (|s| >= 2 ==> Start(s, |s| - 2) <= limit)
  {
    assert s[..|s|] == s && s != "";
    assert Start(s, 0) == 0;
  }

  /** Otherwise it is one rune longer than the shortest prefix that does not fit. */
  lemma KeptOvershoots(s: string, limit: nat)
    requires limit > 0 && |s| >= 2 && Start(s, |s| - 2) > limit && Bytes(s) > limit
    ensures 2 <= Kept(s, limit) < |s| && Start(s, Kept(s, limit) - 1) > limit
    ensures forall j :: 0 <= j < Kept(s, limit) - 1 ==> Start(s, j) <= limit
  {
    FirstOverIsFirst(s, limit, 0);
    assert FirstOver(s, limit, 0) <= |s| - 2;
    assert Start(s, 0) == 0;
  }

  /** The bound is reached: one-byte runes up to the limit, then four-byte ones. */
  function Tight(limit: nat): string {
    seq(limit, i => 'a') + ['\U{1F600}', '\U{1F600}', '\U{1F600}']
  }

  lemma {:induction false} AsciiStart(s: string, n: nat)
    requires n <= |s| && forall i :: 0 <= i < n ==> s[i] == 'a'
    ensures Start(s, n) == n
  {
    if n > 0 {
      AsciiStart(s, n - 1);
      StartStep(s, n - 1);
    }
  }

  lemma EightIsReached(limit: nat)
    requires limit > 0
    ensures Bytes(Tight(limit)) > limit
    ensures Start(Tight(limit), Kept(Tight(limit), limit)) == limit + 8
  {
    var s := Tight(limit);
    AsciiStart(s, limit);
    StartStep(s, limit);
    StartStep(s, limit + 1);
    StartStep(s, limit + 2);
    assert s[..|s|] == s;
    FirstOverIsFirst(s, limit, 0);
    var k := FirstOver(s, limit, 0);
    if k <= limit {
      StartGrows(s, k, limit);
    }
  }
}
