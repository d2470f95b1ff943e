/** The answer-leak filter of the tutor (mask_answer_leak in apps/ai-tutor/app/guardrails.py) over Python's
    string operations: multi-word model commands in a level 1 or 2 hint are cut down to their first word. */
module AnswerLeak {

  // --------------------------------------------------------- Python's strings

  predicate IsSpace(c: char) {
    var n := c as int;
    || 9 <= n <= 13 || 28 <= n <= 32 || n == 0x85 || n == 0xA0 || n == 0x1680 || 0x2000 <= n <= 0x200A
    || n == 0x2028 || n == 0x2029 || n == 0x202F || n == 0x205F || n == 0x3000
  }

  function LeftStrip(s: string): string {
    if s != [] && IsSpace(s[0]) then LeftStrip(s[1..]) else s
  }

  function RightStrip(s: string): string {
    if s != [] && IsSpace(s[|s| - 1]) then RightStrip(s[..|s| - 1]) else s
  }

  function Strip(s: string): string {
    RightStrip(LeftStrip(s))
  }

  /** Everything up to the first white space. */
  function Word(s: string): string {
    if s == [] || IsSpace(s[0]) then [] else [s[0]] + Word(s[1..])
  }

  /** s.split()[0]. */
  function FirstWord(s: string): string {
    Word(LeftStrip(s))
  }

  predicate OccursAt(s: string, d: string, p: int) {
    0 <= p && p + |d| <= |s| && forall j :: 0 <= j < |d| ==> d[j] == s[p + j]
  }

  predicate Contains(s: string, d: string) {
    exists p :: 0 <= p <= |s| && OccursAt(s, d, p)
  }

  /** The first place at or after i, or |s| if there is none. */
  function Find(s: string, d: string, i: nat): (p: nat)
    requires d != [] && i <= |s|
    ensures i <= p <= |s| && (p < |s| ==> OccursAt(s, d, p))
    ensures forall q :: i <= q < p ==> !OccursAt(s, d, q)
    decreases |s| - i
  {
    if i == |s| || OccursAt(s, d, i) then i else Find(s, d, i + 1)
  }

  /** A string cut at places where another one was. */
  datatype Pieces = Last(s: string) | Cut(before: string, rest: Pieces)

  /** Cut out every occurrence of d from the left, without overlaps. */
  function Cuts(s: string, d: string): Pieces
    requires d != []
    decreases |s|
  {
    var p := Find(s, d, 0);
    if p == |s| then Last(s) else Cut(s[..p], Cuts(s[p + |d|..], d))
  }

  function Fill(ps: Pieces, r: string): string {
    match ps
    case Last(s) => s
    case Cut(before, rest) => before + r + Fill(rest, r)
  }

  /** s.replace(d, r). */
  function Replace(s: string, d: string, r: string): string
    requires d != []
  {
    Fill(Cuts(s, d), r)
  }

  // --------------------------------------------------------------- the filter

  /** A space, an ellipsis, and the request in brackets to complete the command oneself. */
  const TAIL := " \U{2026} (\U{C9C1}\U{C811} \U{C644}\U{C131}\U{D574} \U{BCF4}\U{C138}\U{C694})"

  predicate MultiWord(d: string) {
    d != [] && ' ' in d
  }

  function MaskOne(masked: string, cmd: string): string {
    var d := Strip(cmd);
    if !MultiWord(d) || !Contains(masked, d) then masked else Replace(masked, d, FirstWord(d) + TAIL)
  }

  function MaskAll(hint: string, commands: seq<string>): string {
    if commands == [] then hint
    else MaskOne(MaskAll(hint, commands[..|commands| - 1]), commands[|commands| - 1])
  }

  function Masked(hint: string, commands: seq<string>, level: int): string {
    if level >= 3 then hint else MaskAll(hint, commands)
  }

  // ------------------------------------------------------ words and stripping

  /** No white space at either end. */
  predicate Trim(s: string) {
    s != [] && !IsSpace(s[0]) && !IsSpace(s[|s| - 1])
  }

  lemma {:induction false} RightStripTrims(s: string)
    ensures var t := RightStrip(s); t <= s && (t == [] || !IsSpace(t[|t| - 1]))
  {
    if s != [] && IsSpace(s[|s| - 1]) { RightStripTrims(s[..|s| - 1]); }
  }

  lemma {:induction false} LeftStripTrims(s: string)
    ensures var t := LeftStrip(s); t == [] || !IsSpace(t[0])
  {
    if s != [] && IsSpace(s[0]) { LeftStripTrims(s[1..]); }
  }

  predicate AllSpace(s: string) {
    forall i :: 0 <= i < |s| ==> IsSpace(s[i])
  }

  lemma {:induction false} RightStripCuts(s: string)
    ensures var t := RightStrip(s); |t| <= |s| && t == s[..|t|] && AllSpace(s[|t|..])
  {
    if s != [] && IsSpace(s[|s| - 1]) { RightStripCuts(s[..|s| - 1]); }
  }

  lemma {:induction false} LeftStripCuts(s: string)
    ensures var k := |s| - |LeftStrip(s)|; 0 <= k && LeftStrip(s) == s[k..] && AllSpace(s[..k])
  {
    if s != [] && IsSpace(s[0]) {
      LeftStripCuts(s[1..]);
      var k := |s| - |LeftStrip(s)|;
      assert s[..k] == [s[0]] + s[1..][..k - 1];
    }
  }

  /** Stripping removes white space at both ends and nothing else. */
  lemma StripTrims(s: string)
    ensures Strip(s) == [] || Trim(Strip(s))
    ensures exists l, r :: AllSpace(l) && AllSpace(r) && s == l + Strip(s) + r
  {
    LeftStripTrims(s);
    RightStripTrims(LeftStrip(s));
    LeftStripCuts(s);
    RightStripCuts(LeftStrip(s));
    var left := LeftStrip(s);
    var k, n := |s| - |left|, |Strip(s)|;
    assert s == s[..k] + left && left == Strip(s) + left[n..];
    assert s == s[..k] + Strip(s) + left[n..];
  }

  lemma TrimStays(s: string)
    requires Trim(s)
    ensures Strip(s) == s && LeftStrip(s) == s
  {
  }

  lemma {:induction false} WordPrefix(s: string)
    ensures var w := Word(s);
      && w <= s
      && (' ' in s ==> |w| < |s|)
      && (|w| < |s| ==> IsSpace(s[|w|]))
      && (forall i :: 0 <= i < |w| ==> !IsSpace(w[i]))
  {
    if s != [] && !IsSpace(s[0]) { WordPrefix(s[1..]); }
  }

  /** A non-empty proper prefix without white space. */
  predicate Heads(w: string, d: string) {
    w != [] && |w| < |d| && w <= d && forall i :: 0 <= i < |w| ==> !IsSpace(w[i])
  }

  /** The first word of a command reaches to its first white space. */
  lemma FirstWordHeads(d: string)
    requires Trim(d) && ' ' in d
    ensures Heads(FirstWord(d), d) && IsSpace(d[|FirstWord(d)|])
  {
    TrimStays(d);
    WordPrefix(d);
  }

  // ------------------------------------------------------------ the condition

  /** Laid over each other with the tail starting k places after the start of c, the two share at least
      one place, agree wherever they overlap, and the tail does not follow white space of c. */
  predicate Aligned(c: string, tail: string, k: int) {
    && -|tail| < k < |c|
    && (forall j :: 0 <= j < |c| && k <= j < k + |tail| ==> c[j] == tail[j - k])
    && (k > 0 ==> !IsSpace(c[k - 1]))
  }

  predicate Blends(c: string, tail: string) {
    exists k :: -|tail| < k < |c| && Aligned(c, tail, k)
  }

  /** An occurrence lies in front of the inserted tail, or behind it, or blends with it. */
  lemma AcrossTail(s: string, tail: string, t: string, c: string, p: int)
    requires s != [] && !IsSpace(s[|s| - 1]) && c != [] && OccursAt(s + tail + t, c, p)
    ensures Blends(c, tail) || OccursAt(s, c, p) || OccursAt(t, c, p - |s + tail|)
  {
    var whole := s + tail + t;
    var k := |s| - p;
    if p + |c| <= |s| {
      assert OccursAt(s, c, p);
    } else if p >= |s + tail| {
      var q := p - |s + tail|;
      assert OccursAt(t, c, q);
    } else {
      forall j | 0 <= j < |c| && k <= j < k + |tail| ensures c[j] == tail[j - k] {
        assert c[j] == whole[p + j];
      }
      if k > 0 { assert c[k - 1] == whole[p + k - 1]; }
      assert Aligned(c, tail, k);
    }
  }

  lemma ContainsBehind(s: string, t: string, c: string)
    requires Contains(t, c)
    ensures Contains(s + t, c)
  {
    var q :| 0 <= q <= |t| && OccursAt(t, c, q);
    assert OccursAt(s + t, c, |s| + q);
  }

  /** Every cut is at the first place where d occurs, and none is left at the end. */
  ghost predicate Leftmost(ps: Pieces, d: string) {
    match ps
    case Last(s) => forall q :: !OccursAt(s, d, q)
    case Cut(before, rest) =>
      && (forall q :: 0 <= q < |before| ==> !OccursAt(before + d + Fill(rest, d), d, q))
      && Leftmost(rest, d)
  }

  lemma SplitAt(s: string, d: string, p: nat)
    requires OccursAt(s, d, p)
    ensures s == s[..p] + d + s[p + |d|..]
  {
    assert s[p..p + |d|] == d;
    assert s == s[..p] + s[p..p + |d|] + s[p + |d|..];
  }

  lemma CutLeftmost(s: string, d: string, p: nat, rest: Pieces)
    requires OccursAt(s, d, p) && Fill(rest, d) == s[p + |d|..] && Leftmost(rest, d)
    requires forall q :: 0 <= q < p ==> !OccursAt(s, d, q)
    ensures Fill(Cut(s[..p], rest), d) == s && Leftmost(Cut(s[..p], rest), d)
  {
    SplitAt(s, d, p);
  }

  /** Putting d back gives the string that was cut. */
  lemma {:induction false} CutsRejoin(s: string, d: string)
    requires d != []
    ensures Fill(Cuts(s, d), d) == s && Leftmost(Cuts(s, d), d)
    decreases |s|
  {
    var p := Find(s, d, 0);
    if p < |s| {
      CutsRejoin(s[p + |d|..], d);
      CutLeftmost(s, d, p, Cuts(s[p + |d|..], d));
    } else {
      forall q ensures !OccursAt(s, d, q) { NoRoom(s, d, q); }
    }
  }

  lemma NoRoom(s: string, d: string, q: int)
    requires d != []
    ensures OccursAt(s, d, q) ==> 0 <= q < |s|
  {
  }

  // ------------------------------------------------------------- what stays

  /** The same text with every leftmost occurrence of d replaced, and every other character in its place. */
  ghost predicate Swapped(a: string, d: string, r: string, b: string) {
    exists ps :: Fill(ps, d) == a && Leftmost(ps, d) && b == Fill(ps, r)
  }

  /** There is only one way to cut a text so. */
  lemma {:induction false} CutsUnique(ps: Pieces, qs: Pieces, d: string)
    requires d != [] && Fill(ps, d) == Fill(qs, d) && Leftmost(ps, d) && Leftmost(qs, d)
    ensures ps == qs
  {
    if ps.Cut? { assert OccursAt(Fill(ps, d), d, |ps.before|); }
    if qs.Cut? { assert OccursAt(Fill(qs, d), d, |qs.before|); }
    if ps.Cut? && qs.Cut? {
      var s := Fill(ps, d);
      assert |ps.before| == |qs.before|;
      var k := |ps.before|;
      assert ps.before == s[..k] == qs.before;
      assert Fill(ps.rest, d) == s[k + |d|..] == Fill(qs.rest, d);
      CutsUnique(ps.rest, qs.rest, d);
    }
  }

  lemma ReplaceSwaps(a: string, d: string, r: string, b: string)
    requires d != []
    ensures Swapped(a, d, r, b) <==> b == Replace(a, d, r)
  {
    CutsRejoin(a, d);
    if Swapped(a, d, r, b) {
      var ps :| Fill(ps, d) == a && Leftmost(ps, d) && b == Fill(ps, r);
      CutsUnique(ps, Cuts(a, d), d);
    }
  }

  lemma NothingToSwap(a: string, d: string, r: string)
    requires d != [] && !Contains(a, d)
    ensures Swapped(a, d, r, a)
  {
    forall q ensures !OccursAt(a, d, q) { NoRoom(a, d, q); }
    assert Fill(Last(a), d) == a && Leftmost(Last(a), d) && Fill(Last(a), r) == a;
  }

  /** What one command does to a text: nothing if it has one word, and else every leftmost occurrence of it
      becomes its first word and the inserted text. */
  ghost predicate MasksTo(a: string, cmd: string, b: string) {
    var d := Strip(cmd);
    if ' ' in d then Swapped(a, d, FirstWord(d) + TAIL, b) else b == a
  }

  lemma MaskOneMeans(a: string, cmd: string, b: string)
    ensures MasksTo(a, cmd, b) <==> b == MaskOne(a, cmd)
  {
    var d := Strip(cmd);
    if ' ' in d {
      ReplaceSwaps(a, d, FirstWord(d) + TAIL, b);
      if !Contains(a, d) {
        NothingToSwap(a, d, FirstWord(d) + TAIL);
        ReplaceSwaps(a, d, FirstWord(d) + TAIL, a);
      }
    }
  }

  /** The texts from the hint to the answer, one command after another. */
  ghost predicate MaskedBy(texts: seq<string>, hint: string, commands: seq<string>, masked: string) {
    && |texts| == |commands| + 1 && texts[0] == hint && texts[|commands|] == masked
    && forall i :: 0 <= i < |commands| ==> MasksTo(texts[i], commands[i], texts[i + 1])
  }

  lemma MaskedByNext(texts: seq<string>, hint: string, commands: seq<string>, i: nat, a: string, b: string)
    requires i < |commands| && MaskedBy(texts, hint, commands[..i], a) && MasksTo(a, commands[i], b)
    ensures MaskedBy(texts + [b], hint, commands[..i + 1], b)
  {
    var texts', done := texts + [b], commands[..i + 1];
    forall j | 0 <= j < i + 1 ensures MasksTo(texts'[j], done[j], texts'[j + 1]) {
      if j < i { assert MasksTo(texts[j], commands[..i][j], texts[j + 1]); }
    }
  }

  /** One round of the loop. */
  method MaskCommand(text: string, cmd: string) returns (masked: string)
    ensures masked == MaskOne(text, cmd) && MasksTo(text, cmd, masked)
  {
    masked := text;
    var d := Strip(cmd);
    if d != [] && ' ' in d && Contains(masked, d) { masked := Replace(masked, d, FirstWord(d) + TAIL); }
    MaskOneMeans(text, cmd, masked);
  }

  method MaskAnswerLeak(hint: string, commands: seq<string>, level: int) returns (masked: string)
    ensures masked == Masked(hint, commands, level)
    ensures level >= 3 ==> masked == hint
    ensures level < 3 ==> exists texts :: MaskedBy(texts, hint, commands, masked)
  {
    if level >= 3 { return hint; }
    masked := hint;
    ghost var texts := [hint];
    for i := 0 to |commands|
      invariant masked == MaskAll(hint, commands[..i])
      invariant MaskedBy(texts, hint, commands[..i], masked)
    {
      assert commands[..i + 1][..i] == commands[..i];
      ghost var before := masked;
      masked := MaskCommand(masked, commands[i]);
      MaskedByNext(texts, hint, commands, i, before, masked);
      texts := texts + [masked];
    }
    assert commands[..|commands|] == commands;
  }

  /** The commands the filter looks at. */
  function MultiWords(commands: seq<string>): seq<string> {
    if commands == [] then []
    else
      var n := |commands| - 1;
      MultiWords(commands[..n]) + if ' ' in Strip(commands[n]) then [commands[n]] else []
  }

  /** One-word commands make no difference. */
  lemma {:induction false} OneWordIgnored(hint: string, commands: seq<string>, level: int)
    ensures Masked(hint, commands, level) == Masked(hint, MultiWords(commands), level)
    decreases |commands|
  {
    if commands != [] {
      var n := |commands| - 1;
      OneWordIgnored(hint, commands[..n], level);
      var kept := MultiWords(commands[..n]);
      MaskOneMeans(MaskAll(hint, commands[..n]), commands[n], MaskAll(hint, commands));
      if ' ' in Strip(commands[n]) {
        assert MultiWords(commands)[..|kept|] == kept;
      } else {
        assert MultiWords(commands) == kept;
      }
    }
  }

  /** A hint in which no multi-word command occurs stays as it is. */
  lemma {:induction false} CleanHintStays(hint: string, commands: seq<string>, level: int)
    requires forall i :: 0 <= i < |commands| && ' ' in Strip(commands[i]) ==> !Contains(hint, Strip(commands[i]))
    ensures Masked(hint, commands, level) == hint
    decreases |commands|
  {
    if commands != [] {
      var n := |commands| - 1;
      CleanHintStays(hint, commands[..n], level);
      MaskOneMeans(hint, commands[n], hint);
      if ' ' in Strip(commands[n]) { NothingToSwap(hint, Strip(commands[n]), FirstWord(Strip(commands[n])) + TAIL); }
    }
  }

  /** With one command the answer is the hint with that command swapped, and nothing else is. */
  lemma OneCommandSwapped(hint: string, cmd: string, level: int, masked: string)
    requires level < 3 && ' ' in Strip(cmd)
    ensures masked == Masked(hint, [cmd], level) <==> Swapped(hint, Strip(cmd), FirstWord(Strip(cmd)) + TAIL, masked)
  {
    assert [cmd][..0] == [];
    assert MaskAll(hint, [cmd]) == MaskOne(hint, cmd);
    MaskOneMeans(hint, cmd, masked);
  }

  /** What an occurrence of c in one masked stretch and the rest means. */
  lemma AtCut(before: string, d: string, w: string, tail: string, was: string, after: string, c: string, p: int)
    requires Heads(w, d) && c != [] && !Blends(c, tail)
    requires forall q :: 0 <= q < |before| ==> !OccursAt(before + d + was, d, q)
    requires OccursAt(before + w + tail + after, c, p)
    ensures (c != d && Contains(before + d + was, c)) || OccursAt(after, c, p - |before + w + tail|)
  {
    AcrossTail(before + w, tail, after, c, p);
    if OccursAt(before + w, c, p) { assert OccursAt(before + d + was, c, p); }
  }

  lemma Regroup(a: string, w: string, tail: string, after: string)
    ensures a + (w + tail) + after == a + w + tail + after
  {
  }

  /** Masking d brings no command c back, and no overlapping occurrence of d itself survives. */
  lemma {:induction false} FillBringsNothing(ps: Pieces, d: string, w: string, tail: string, c: string, p: int)
    requires Heads(w, d) && c != [] && !Blends(c, tail) && Leftmost(ps, d) && OccursAt(Fill(ps, w + tail), c, p)
    ensures c != d && Contains(Fill(ps, d), c)
  {
    match ps
    case Last(s) => assert OccursAt(s, c, p);
    case Cut(before, rest) =>
      var was, after := Fill(rest, d), Fill(rest, w + tail);
      Regroup(before, w, tail, after);
      AtCut(before, d, w, tail, was, after, c, p);
      if c == d || !Contains(before + d + was, c) {
        FillBringsNothing(rest, d, w, tail, c, p - |before + w + tail|);
        ContainsBehind(before + d, was, c);
      }
  }

  lemma MaskOneKeepsOut(masked: string, cmd: string, c: string)
    requires c != [] && !Blends(c, TAIL)
    ensures Contains(MaskOne(masked, cmd), c) ==> Contains(masked, c) && !(MultiWord(c) && Strip(cmd) == c)
  {
    var d, after := Strip(cmd), MaskOne(masked, cmd);
    StripTrims(cmd);
    if MultiWord(d) && Contains(masked, d) && Contains(after, c) {
      FirstWordHeads(d);
      var p :| 0 <= p <= |after| && OccursAt(after, c, p);
      CutsRejoin(masked, d);
      FillBringsNothing(Cuts(masked, d), d, FirstWord(d), TAIL, c, p);
    }
  }

  /** A command that cannot blend with the inserted text never survives, whatever the hint, the other
      commands and their order. */
  lemma {:induction false} NoLeak(hint: string, commands: seq<string>, c: string, i: nat)
    requires i < |commands| && Strip(commands[i]) == c && MultiWord(c) && !Blends(c, TAIL)
    ensures !Contains(MaskAll(hint, commands), c)
    decreases |commands|
  {
    var n := |commands| - 1;
    if i < n { NoLeak(hint, commands[..n], c, i); }
    MaskOneKeepsOut(MaskAll(hint, commands[..n]), commands[n], c);
  }

  // ------------------------------------------------- a blending command survives

  function Repeat(z: char, n: nat): (s: string)
    ensures |s| == n && forall i :: 0 <= i < n ==> s[i] == z
  {
    seq(n, i requires 0 <= i < n => z)
  }

  /** Where the word ending at k starts. */
  function WordStart(s: string, k: nat): (m: nat)
    requires k <= |s|
    ensures m <= k && (forall i :: m <= i < k ==> !IsSpace(s[i])) && (k > 0 && !IsSpace(s[k - 1]) ==> m < k)
  {
    if k > 0 && !IsSpace(s[k - 1]) then WordStart(s, k - 1) else k
  }

  /** A second command made for c: the word w, a space, and a filler longer than c. */
  function Decoy(c: string, w: string, z: char): string {
    w + " " + Repeat(z, |c|)
  }

  /** A filler that neither starts nor ends c. */
  predicate Fills(c: string, z: char) {
    c != [] && !IsSpace(z) && z != c[0] && z != c[|c| - 1]
  }

  predicate NoSpace(w: string) {
    w != [] && forall i :: 0 <= i < |w| ==> !IsSpace(w[i])
  }

  lemma DecoyIsCommand(c: string, w: string, z: char)
    requires Fills(c, z) && NoSpace(w)
    ensures var d := Decoy(c, w, z); Trim(d) && ' ' in d && Strip(d) == d && FirstWord(d) == w
  {
    var d := Decoy(c, w, z);
    assert d[|w|] == ' ';
    TrimStays(d);
    WordUntilSpace(w, [' '] + Repeat(z, |c|));
    assert w + ([' '] + Repeat(z, |c|)) == d;
  }

  lemma {:induction false} WordUntilSpace(w: string, t: string)
    requires (forall i :: 0 <= i < |w| ==> !IsSpace(w[i])) && t != [] && IsSpace(t[0])
    ensures Word(w + t) == w
  {
    if w == [] {
      assert w + t == t;
    } else {
      WordUntilSpace(w[1..], t);
      assert (w + t)[1..] == w[1..] + t;
    }
  }

  lemma DecoyHidesCommand(c: string, seg: string, w: string, z: char, rest: string, p: int)
    requires Trim(c) && Fills(c, z) && |seg + w| < |c| && |rest| < |c|
    ensures !OccursAt(seg + Decoy(c, w, z) + rest, c, p)
  {
    var hint, a := seg + Decoy(c, w, z) + rest, |seg + w|;
    assert hint[a] == ' ' && forall i :: a < i <= a + |c| ==> hint[i] == z;
  }

  lemma DecoyFound(c: string, seg: string, w: string, z: char, rest: string)
    requires Fills(c, z) && |seg + w| < |c|
    ensures Find(seg + Decoy(c, w, z) + rest, Decoy(c, w, z), 0) == |seg|
  {
    var d := Decoy(c, w, z);
    var hint, a := seg + d + rest, |seg + w|;
    assert hint[a] == ' ';
    assert OccursAt(hint, d, |seg|);
    forall q | 0 <= q < |seg| ensures !OccursAt(hint, d, q) {
      assert d[a - q] == z;
    }
  }

  lemma DecoyReplaced(c: string, seg: string, w: string, z: char, rest: string, r: string)
    requires Fills(c, z) && |seg + w| < |c| && |rest| < |c|
    ensures Replace(seg + Decoy(c, w, z) + rest, Decoy(c, w, z), r) == seg + r + rest
  {
    var d := Decoy(c, w, z);
    var hint := seg + d + rest;
    DecoyFound(c, seg, w, z, rest);
    CutOnce(hint, seg, d, rest);
    assert Fill(Last(rest), r) == rest;
  }

  lemma CutOnce(s: string, seg: string, d: string, rest: string)
    requires |rest| < |d| && s == seg + d + rest && Find(s, d, 0) == |seg|
    ensures Cuts(s, d) == Cut(seg, Last(rest))
  {
    assert s[..|seg|] == seg && s[|seg| + |d|..] == rest;
    assert Find(rest, d, 0) == |rest|;
  }

  ghost predicate Survives(c: string) {
    exists hint: string, commands: seq<string>, level: int, i: nat
      {:trigger Strip(commands[i]), Masked(hint, commands, level)} ::
      level < 3 && i < |commands| && Strip(commands[i]) == c && Contains(Masked(hint, commands, level), c)
  }

  lemma DecoyBringsBack(c: string, seg: string, w: string, z: char, rest: string)
    requires Trim(c) && ' ' in c && Fills(c, z) && NoSpace(w) && |seg + w| < |c| && |rest| < |c|
    requires Contains(seg + (w + TAIL) + rest, c)
    ensures Survives(c)
  {
    var d := Decoy(c, w, z);
    var hint := seg + d + rest;
    DecoyIsCommand(c, w, z);
    TrimStays(c);
    forall p | 0 <= p <= |hint| ensures !OccursAt(hint, c, p) { DecoyHidesCommand(c, seg, w, z, rest, p); }
    DecoyFound(c, seg, w, z, rest);
    assert OccursAt(hint, d, |seg|);
    DecoyReplaced(c, seg, w, z, rest, w + TAIL);
    var commands := [c, d];
    assert commands[..1] == [c] && commands[..1][..0] == [];
    assert MaskAll(hint, [c]) == hint;
    assert Masked(hint, commands, 1) == seg + (w + TAIL) + rest;
    assert Strip(commands[0]) == c;
  }

  lemma Covers(c: string, tail: string, k: int, pre: string, rest: string)
    requires Aligned(c, tail, k)
    requires k > 0 ==> pre == c[..k]
    requires rest == if k + |tail| < |c| then c[k + |tail|..] else []
    ensures Contains(pre + tail + rest, c)
  {
    var whole, p := pre + tail + rest, if k > 0 then 0 else |pre| - k;
    assert OccursAt(whole, c, p);
  }

  lemma Filler(c: string) returns (z: char)
    requires c != []
    ensures Fills(c, z)
  {
    z := if 'a' != c[0] && 'a' != c[|c| - 1] then 'a' else if 'b' != c[0] && 'b' != c[|c| - 1] then 'b' else 'd';
  }

  function RestOf(c: string, tail: string, k: int): string
    requires -|tail| < k
  {
    if k + |tail| < |c| then c[k + |tail|..] else []
  }

  /** As much of c as stands in front of the tail, its last word apart. */
  lemma LaidInside(c: string, tail: string, k: int) returns (seg: string, w: string)
    requires Aligned(c, tail, k) && k > 0
    ensures NoSpace(w) && |seg + w| < |c| && Contains(seg + (w + tail) + RestOf(c, tail, k), c)
  {
    var m := WordStart(c, k);
    seg, w := c[..m], c[m..k];
    assert seg + w == c[..k];
    Covers(c, tail, k, seg + w, RestOf(c, tail, k));
    Regroup(seg, w, tail, RestOf(c, tail, k));
  }

  lemma LaidBehind(c: string, tail: string, k: int)
    requires Aligned(c, tail, k) && k <= 0
    ensures Contains([] + ("a" + tail) + RestOf(c, tail, k), c)
  {
    Covers(c, tail, k, [] + "a", RestOf(c, tail, k));
    Regroup([], "a", tail, RestOf(c, tail, k));
  }

  lemma InsideSurvives(c: string, k: int)
    requires Trim(c) && ' ' in c && Aligned(c, TAIL, k) && k > 0
    ensures Survives(c)
  {
    var z := Filler(c);
    var seg, w := LaidInside(c, TAIL, k);
    DecoyBringsBack(c, seg, w, z, RestOf(c, TAIL, k));
  }

  lemma BehindSurvives(c: string, k: int)
    requires Trim(c) && ' ' in c && Aligned(c, TAIL, k) && k <= 0
    ensures Survives(c)
  {
    var z := Filler(c);
    LaidBehind(c, TAIL, k);
    DecoyBringsBack(c, [], "a", z, RestOf(c, TAIL, k));
  }

  lemma BlendSurvives(c: string, k: int)
    requires Trim(c) && ' ' in c && Aligned(c, TAIL, k)
    ensures Survives(c)
  {
    if k > 0 { InsideSurvives(c, k); } else { BehindSurvives(c, k); }
  }

  /** For every multi-word command: some hint and command list let it through at level 1 or 2 exactly
      when it can be laid over the inserted text. */
  lemma SurvivesIff(c: string)
    requires Trim(c) && ' ' in c
    ensures Survives(c) <==> Blends(c, TAIL)
  {
    if Survives(c) {
      var hint: string, commands: seq<string>, level: int, i: nat :|
        level < 3 && i < |commands| && Strip(commands[i]) == c && Contains(Masked(hint, commands, level), c);
      if !Blends(c, TAIL) { NoLeak(hint, commands, c, i); }
    }
    if Blends(c, TAIL) {
      var k :| -|TAIL| < k < |c| && Aligned(c, TAIL, k);
      BlendSurvives(c, k);
    }
  }

  predicate Ascii(c: string) {
    forall i :: 0 <= i < |c| ==> c[i] as int < 128
  }

  lemma AlignedPlaces(c: string, tail: string, k: int)
    requires c != [] && tail != [] && Aligned(c, tail, k)
    ensures k <= 0 ==> c[0] == tail[-k] && (1 < |c| && 1 - k < |tail| ==> c[1] == tail[1 - k])
    ensures k > 0 ==> c[k] == tail[0] && (k + 1 < |c| && 1 < |tail| ==> c[k + 1] == tail[1])
  {
  }

  /** Starts with a space and ends with a closing bracket; every place before that is white space, or
      not ASCII, or followed by a place that is not. */
  predicate Foreign(tail: string) {
    && |tail| > 1 && tail[0] == ' ' && tail[|tail| - 1] == ')'
    && tail[1] as int >= 128
    && (forall i :: 0 <= i < |tail| - 1 ==> IsSpace(tail[i]) || tail[i] as int >= 128 || tail[i + 1] as int >= 128)
  }

  /** An ASCII command can blend with such a text only by starting with its closing bracket. */
  lemma AsciiBlends(c: string, tail: string)
    requires Trim(c) && |c| > 1 && Ascii(c) && Foreign(tail)
    ensures Blends(c, tail) <==> c[0] == ')'
  {
    if Blends(c, tail) {
      var k :| -|tail| < k < |c| && Aligned(c, tail, k);
      AlignedPlaces(c, tail, k);
    }
    if c[0] == ')' { assert Aligned(c, tail, 1 - |tail|); }
  }

  lemma TailForeign()
    ensures Foreign(TAIL)
  {
  }

  /** For ASCII commands the filter is exact: a multi-word command never survives in any hint, whatever
      the other commands are, if and only if it does not start with a closing bracket. */
  lemma AsciiNeverSurvivesIff(c: string)
    requires Trim(c) && ' ' in c && Ascii(c)
    ensures !Survives(c) <==> c[0] != ')'
  {
    SurvivesIff(c);
    TailForeign();
    AsciiBlends(c, TAIL);
  }
}
