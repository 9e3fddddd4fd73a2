/**
 * The clean-up chain the plan route applies to the provider's reply before
 * parsing it (src/app/api/generate-plan/route.ts:147-151):
 *   remove every "```json" (any letter case), then every "```", then every
 *   character in U+0000..U+001F, then trim JavaScript whitespace at both ends.
 * Each `replace` uses a global regular expression, so matches anywhere in the
 * text are removed, scanning left to right without overlap.
 */
module TextCleanup {
  import opened Common

  /** Letters compare case-insensitively under the `i` flag; only ASCII letters fold. */
  function LowerAscii(c: char): char {
    if 'A' <= c <= 'Z' then (c as int + 32) as char else c
  }

  /** "```" starts at position `i` of `s`. */
  predicate FenceAt(s: string, i: nat) {
    i + 3 <= |s| && s[i] == '`' && s[i + 1] == '`' && s[i + 2] == '`'
  }

  /** The pattern /```json/i matches `s` at position `i`. */
  predicate JsonFenceAt(s: string, i: nat) {
    && i + 7 <= |s|
    && FenceAt(s, i)
    && LowerAscii(s[i + 3]) == 'j' && LowerAscii(s[i + 4]) == 's'
    && LowerAscii(s[i + 5]) == 'o' && LowerAscii(s[i + 6]) == 'n'
  }

  /** `w` is exactly one match of /```json/i ("```json", "```JSON", ...). */
  predicate IsJsonFence(w: string) {
    |w| == 7 && JsonFenceAt(w, 0)
  }

  /** `s.replace(/```json/gi, "")` */
  function StripJsonFences(s: string): string
    decreases |s|
  {
    if |s| < 7 then s
    else if JsonFenceAt(s, 0) then StripJsonFences(s[7..])
    else [s[0]] + StripJsonFences(s[1..])
  }

  /** `s.replace(/```/g, "")` */
  function StripFences(s: string): string
    decreases |s|
  {
    if |s| < 3 then s
    else if FenceAt(s, 0) then StripFences(s[3..])
    else [s[0]] + StripFences(s[1..])
  }

  predicate IsControl(c: char) {
    c as int <= 0x1F
  }

  /** `s.replace(/[\u0000-\u001F]+/g, "")`: every run of control characters goes. */
  function StripControls(s: string): string {
    if s == [] then []
    else if IsControl(s[0]) then StripControls(s[1..])
    else [s[0]] + StripControls(s[1..])
  }

  /** The characters `String.prototype.trim` removes: WhiteSpace and LineTerminator. */
  predicate IsJsSpace(c: char) {
    var k := c as int;
    || k == 0x09 || k == 0x0A || k == 0x0B || k == 0x0C || k == 0x0D
    || k == 0x20 || k == 0xA0 || k == 0x1680
    || (0x2000 <= k <= 0x200A)
    || k == 0x2028 || k == 0x2029 || k == 0x202F || k == 0x205F
    || k == 0x3000 || k == 0xFEFF
  }

  function TrimStart(s: string): string
    decreases |s|
  {
    if s != [] && IsJsSpace(s[0]) then TrimStart(s[1..]) else s
  }

  function TrimEnd(s: string): string
    decreases |s|
  {
    if s != [] && IsJsSpace(s[|s| - 1]) then TrimEnd(s[..|s| - 1]) else s
  }

  /**
   * Trimming the start drops only whitespace, and keeps the suffix that
   * does not begin with whitespace.
   */
  lemma {:induction false} TrimStartShape(s: string)
    ensures var r := TrimStart(s);
      && |r| <= |s| && r == s[|s| - |r|..]
      && (forall i :: 0 <= i < |s| - |r| ==> IsJsSpace(s[i]))
      && (r != [] ==> !IsJsSpace(r[0]))
    decreases |s|
  {
    if s != [] && IsJsSpace(s[0]) {
      TrimStartShape(s[1..]);
      var r := TrimStart(s[1..]);
      assert s[1..][|s| - 1 - |r|..] == s[|s| - |r|..];
      forall i | 0 <= i < |s| - |r| ensures IsJsSpace(s[i]) {
        if i > 0 { assert s[i] == s[1..][i - 1]; }
      }
    }
  }

  /**
   * Trimming the end drops only whitespace, and keeps the prefix that does
   * not end with whitespace.
   */
  lemma {:induction false} TrimEndShape(s: string)
    ensures var r := TrimEnd(s);
      && |r| <= |s| && r == s[..|r|]
      && (forall i :: |r| <= i < |s| ==> IsJsSpace(s[i]))
      && (r != [] ==> !IsJsSpace(r[|r| - 1]))
    decreases |s|
  {
    if s != [] && IsJsSpace(s[|s| - 1]) {
      TrimEndShape(s[..|s| - 1]);
      var r := TrimEnd(s[..|s| - 1]);
      assert s[..|s| - 1][..|r|] == s[..|r|];
      forall i | |r| <= i < |s| ensures IsJsSpace(s[i]) {
        if i < |s| - 1 { assert s[i] == s[..|s| - 1][i]; }
      }
    }
  }

  /** `s.trim()` */
  function Trim(s: string): string {
    TrimEnd(TrimStart(s))
  }

  /** The whole chain applied to the provider's text. */
  function Clean(raw: string): string {
    Trim(StripControls(StripFences(StripJsonFences(raw))))
  }

  predicate NoControls(s: string) {
    forall i :: 0 <= i < |s| ==> !IsControl(s[i])
  }

  predicate NoBacktick(s: string) {
    forall i :: 0 <= i < |s| ==> s[i] != '`'
  }

  lemma {:induction false} StripJsonFencesShorter(s: string)
    ensures |StripJsonFences(s)| <= |s|
    decreases |s|
  {
    if |s| >= 7 {
      if JsonFenceAt(s, 0) { StripJsonFencesShorter(s[7..]); } else { StripJsonFencesShorter(s[1..]); }
    }
  }

  lemma {:induction false} StripFencesShorter(s: string)
    ensures |StripFences(s)| <= |s|
    decreases |s|
  {
    if |s| >= 3 {
      if FenceAt(s, 0) { StripFencesShorter(s[3..]); } else { StripFencesShorter(s[1..]); }
    }
  }

  /**
   * Removing control characters leaves none, never lengthens the text, and
   * leaves text without them unchanged.
   */
  lemma {:induction false} StripControlsSound(s: string)
    ensures NoControls(StripControls(s))
    ensures |StripControls(s)| <= |s|
    ensures NoControls(s) ==> StripControls(s) == s
  {
    if s != [] {
      var rest := StripControls(s[1..]);
      StripControlsSound(s[1..]);
      if !IsControl(s[0]) {
        var r := [s[0]] + rest;
        forall i | 0 <= i < |r| ensures !IsControl(r[i]) {
          if i > 0 { assert r[i] == rest[i - 1]; }
        }
        if NoControls(s) {
          assert NoControls(s[1..]) by {
            forall i | 0 <= i < |s| - 1 ensures !IsControl(s[1..][i]) {
              assert s[1..][i] == s[i + 1];
            }
          }
          assert [s[0]] + s[1..] == s;
        }
      }
    }
  }

  /**
   * Removal works character by character: stripping a concatenation strips
   * each part, so every other character is kept, in order.
   */
  lemma {:induction false} StripControlsAppend(a: string, b: string)
    ensures StripControls(a + b) == StripControls(a) + StripControls(b)
    decreases |a|
  {
    if a == [] {
      assert a + b == b;
    } else {
      assert (a + b)[0] == a[0] && (a + b)[1..] == a[1..] + b;
      StripControlsAppend(a[1..], b);
      if !IsControl(a[0]) {
        ConcatAssoc([a[0]], StripControls(a[1..]), StripControls(b));
      }
    }
  }

  lemma NoControlsInSlice(d: string, lo: nat, hi: nat)
    requires lo <= hi <= |d| && NoControls(d)
    ensures NoControls(d[lo..hi])
  {
    forall i | 0 <= i < hi - lo ensures !IsControl(d[lo..hi][i]) {
      assert d[lo..hi][i] == d[lo + i];
    }
  }

  /** The trimmed text is a contiguous piece of the text, and all it drops is whitespace. */
  lemma TrimIsSlice(d: string) returns (lo: nat)
    ensures lo == |d| - |TrimStart(d)|
    ensures lo + |Trim(d)| <= |d| && Trim(d) == d[lo..lo + |Trim(d)|]
    ensures forall i :: 0 <= i < lo ==> IsJsSpace(d[i])
    ensures forall i :: lo + |Trim(d)| <= i < |d| ==> IsJsSpace(d[i])
  {
    var t := TrimStart(d);
    var c := TrimEnd(t);
    TrimStartShape(d);
    TrimEndShape(t);
    lo := |d| - |t|;
    assert c == t[..|c|];
    assert d[lo..][..|c|] == d[lo..lo + |c|];
    forall i | lo + |c| <= i < |d| ensures IsJsSpace(d[i]) {
      assert d[i] == t[i - lo];
    }
  }

  /** Trimming neither starts nor ends with whitespace. */
  lemma TrimEnds(d: string)
    ensures var c := Trim(d); c != [] ==> !IsJsSpace(c[0]) && !IsJsSpace(c[|c| - 1])
  {
    var t := TrimStart(d);
    var c := TrimEnd(t);
    TrimStartShape(d);
    TrimEndShape(t);
    if c != [] {
      assert c[0] == t[0];
    }
  }

  /**
   * Trimming keeps a contiguous piece of the text, with no whitespace at
   * either end, and removes only whitespace before and after it.
   */
  lemma TrimShape(d: string)
    ensures var c := Trim(d); var lo := |d| - |TrimStart(d)|;
      && 0 <= lo && lo + |c| <= |d| && c == d[lo..lo + |c|]
      && (forall i :: 0 <= i < lo ==> IsJsSpace(d[i]))
      && (forall i :: lo + |c| <= i < |d| ==> IsJsSpace(d[i]))
      && (NoControls(d) ==> NoControls(c))
      && (c != [] ==> !IsJsSpace(c[0]) && !IsJsSpace(c[|c| - 1]))
  {
    var lo := TrimIsSlice(d);
    if NoControls(d) {
      NoControlsInSlice(d, lo, lo + |Trim(d)|);
    }
    TrimEnds(d);
  }

  /**
   * The cleaned text has no character in U+0000..U+001F, does not begin or
   * end with whitespace, and is never longer than the raw text.
   */
  lemma CleanShape(raw: string)
    ensures var c := Clean(raw);
      && NoControls(c)
      && (c != [] ==> !IsJsSpace(c[0]) && !IsJsSpace(c[|c| - 1]))
      && |c| <= |raw|
  {
    var a := StripJsonFences(raw);
    var b := StripFences(a);
    StripJsonFencesShorter(raw);
    StripFencesShorter(a);
    StripControlsSound(b);
    TrimShape(StripControls(b));
  }

  /** Text without backticks passes the first fence-removal step untouched. */
  lemma {:induction false} NoBacktickKeptByJsonStep(x: string, t: string)
    requires NoBacktick(x)
    ensures StripJsonFences(x + t) == x + StripJsonFences(t)
    decreases |x|
  {
    var s := x + t;
    if x == [] {
      assert s == t;
    } else {
      assert s[0] == x[0] && s[1..] == x[1..] + t;
      NoBacktickKeptByJsonStep(x[1..], t);
      if |s| < 7 {
        assert StripJsonFences(t) == t;
      } else {
        assert !JsonFenceAt(s, 0);
        assert [x[0]] + (x[1..] + StripJsonFences(t)) == x + StripJsonFences(t);
      }
    }
  }

  /** Text without backticks passes the second fence-removal step untouched. */
  lemma {:induction false} NoBacktickKeptByFenceStep(x: string, t: string)
    requires NoBacktick(x)
    ensures StripFences(x + t) == x + StripFences(t)
    decreases |x|
  {
    var s := x + t;
    if x == [] {
      assert s == t;
    } else {
      assert s[0] == x[0] && s[1..] == x[1..] + t;
      NoBacktickKeptByFenceStep(x[1..], t);
      if |s| < 3 {
        assert StripFences(t) == t;
      } else {
        assert !FenceAt(s, 0);
        assert [x[0]] + (x[1..] + StripFences(t)) == x + StripFences(t);
      }
    }
  }

  /**
   * A reply wrapped in a language-tagged fence (in any letter case) cleans to
   * the same text as the bare reply, as long as the reply itself has no
   * backtick.
   */
  lemma FencedReplyCleansLikeBare(tag: string, x: string)
    requires IsJsonFence(tag)
    requires NoBacktick(x)
    ensures Clean(tag + x + "```") == Clean(x)
  {
    var s := tag + x + "```";
    assert JsonFenceAt(s, 0);
    assert s[7..] == x + "```";
    NoBacktickKeptByJsonStep(x, "```");
    NoBacktickKeptByJsonStep(x, []);
    NoBacktickKeptByFenceStep(x, "```");
    NoBacktickKeptByFenceStep(x, []);
    assert x + [] == x;
    assert StripJsonFences(s) == x + "```";
    assert StripFences("```") == [];
  }

  /** Text that begins and ends with something other than whitespace. */
  predicate Unpadded(x: string) {
    x != [] ==> !IsJsSpace(x[0]) && !IsJsSpace(x[|x| - 1])
  }

  /**
   * Cleaning keeps the content: text with no backtick, no control character
   * and no whitespace at either end cleans to itself.
   */
  lemma CleanKeepsPlainText(x: string)
    requires NoBacktick(x) && NoControls(x) && Unpadded(x)
    ensures Clean(x) == x
  {
    NoBacktickKeptByJsonStep(x, []);
    NoBacktickKeptByFenceStep(x, []);
    assert x + [] == x;
    StripControlsSound(x);
    assert TrimStart(x) == x;
    assert TrimEnd(x) == x;
  }

  /**
   * A fenced reply cleans to exactly the reply inside the fences, so the
   * parser sees the bare JSON text.
   */
  lemma FencedReplyCleansToReply(tag: string, x: string)
    requires IsJsonFence(tag)
    requires NoBacktick(x) && NoControls(x) && Unpadded(x)
    ensures Clean(tag + x + "```") == x
  {
    FencedReplyCleansLikeBare(tag, x);
    CleanKeepsPlainText(x);
  }

  /**
   * After the second step no "```" is left anywhere in the text, not just at
   * the ends: within a run of backticks only the last (length mod 3) survive.
   */
  lemma {:induction false} StripFencesLeavesNoFence(s: string)
    ensures var r := StripFences(s);
      && (forall i :: 0 <= i ==> !FenceAt(r, i))
      && (r != [] && r[0] == '`' ==> s != [] && s[0] == '`')
      && (|r| >= 2 && r[0] == '`' && r[1] == '`' ==> |s| >= 2 && s[0] == '`' && s[1] == '`')
    decreases |s|
  {
    if |s| >= 3 {
      if FenceAt(s, 0) {
        StripFencesLeavesNoFence(s[3..]);
      } else {
        StripFencesLeavesNoFence(s[1..]);
        var rest := StripFences(s[1..]);
        var r := [s[0]] + rest;
        forall i | 0 <= i ensures !FenceAt(r, i) {
          if i > 0 {
            assert FenceAt(r, i) ==> FenceAt(rest, i - 1);
          }
        }
      }
    }
  }

  /**
   * The steps run in a fixed order, so control characters between backticks
   * can join them into a fence after fences were removed.
   */
  lemma ControlsCanJoinAFence()
    ensures Clean("``\U{1}`") == "```"
  {
    var s := "``\U{1}`";
    assert !JsonFenceAt(s, 0);
    assert StripJsonFences(s) == s;
    assert !FenceAt(s, 0) && !FenceAt(s[1..], 0);
    assert StripFences(s[1..][1..]) == s[2..];
    assert StripFences(s) == s;
    assert StripControls(s) == "```";
  }
}
