/**
 * The ordinal string operations of the .NET base library that the router
 * relies on (String.Contains, TrimStart, TrimEnd, IndexOf, Substring), and the
 * lamp-hours extraction the device-event handler builds from them.
 * A .NET string is modelled as a `string` (a sequence of Unicode scalar
 * values) that the router compares character by character.
 */
module Text {

  /** Start-of-frame marker of the projector protocol. */
  const STX: char := '\U{02}'
  /** End-of-frame marker of the projector protocol. */
  const ETX: char := '\U{03}'

  /** `t` occurs in `s` starting at index `i`. */
  predicate OccursAt(s: string, t: string, i: int)
  {
    0 <= i && i + |t| <= |s| && s[i..i + |t|] == t
  }

  /** String.Contains(string): an ordinal substring test. */
  predicate Contains(s: string, t: string)
    ensures t == [] ==> Contains(s, t)
    ensures |t| > |s| ==> !Contains(s, t)
    ensures Contains(s, t) ==> forall k | 0 <= k < |t| :: t[k] in s
  {
    assert t == [] ==> OccursAt(s, t, 0);
    exists i | 0 <= i <= |s| - |t| :: OccursAt(s, t, i)
  }

  /** A text lacking one of the characters of `t` does not contain `t`. */
  lemma AbsentChar(s: string, t: string, c: char)
    requires c in t && c !in s
    ensures !Contains(s, t)
  {
    forall i | 0 <= i <= |s| - |t| ensures !OccursAt(s, t, i) {
      var k :| 0 <= k < |t| && t[k] == c;
      assert s[i..i + |t|][k] == s[i + k];
    }
  }

  /** String.TrimStart(char): removes every leading occurrence of `c`. */
  function TrimStart(s: string, c: char): (r: string)
    ensures |r| <= |s| && s == Repeat(c, |s| - |r|) + r
    ensures r == [] || r[0] != c
  {
    if |s| > 0 && s[0] == c then
      var r := TrimStart(s[1..], c);
      var m := |s[1..]| - |r|;
      assert s[1..] == Repeat(c, m) + r;
      assert Repeat(c, m + 1) == [c] + Repeat(c, m);
      assert s == [c] + s[1..];
      r
    else
      assert Repeat(c, 0) + s == s;
      s
  }

  /** String.TrimEnd(char): removes every trailing occurrence of `c`. */
  function TrimEnd(s: string, c: char): (r: string)
    ensures |r| <= |s| && s == r + Repeat(c, |s| - |r|)
    ensures r == [] || r[|r| - 1] != c
  {
    if |s| > 0 && s[|s| - 1] == c then
      var r := TrimEnd(s[..|s| - 1], c);
      RepeatSnoc(c, |s| - 1 - |r|);
      assert s == s[..|s| - 1] + [c];
      r
    else
      assert s + Repeat(c, 0) == s;
      s
  }

  /** String.IndexOf(char): the index of the first `c`, or -1 when there is none. */
  function IndexOf(s: string, c: char): (k: int)
    ensures -1 <= k < |s|
    ensures k == -1 <==> c !in s
    ensures 0 <= k ==> s[k] == c && c !in s[..k]
  {
    if |s| == 0 then -1
    else if s[0] == c then 0
    else
      var k := IndexOf(s[1..], c);
      assert s[1..][..k + 1] == s[1..k + 2] by {
        if k >= 0 { assert s[1..][..k + 1] == s[1..][0..k + 1]; }
      }
      if k == -1 then -1 else k + 1
  }

  /**
   * s.Substring(s.IndexOf(c) + 1): the text after the first `c`, or all of
   * `s` when it has no `c` (IndexOf gives -1).
   */
  function AfterFirst(s: string, c: char): (t: string)
    ensures |t| <= |s| && t == s[|s| - |t|..]
    ensures c !in s ==> t == s
    ensures c in s ==> |t| < |s| && s[|s| - |t| - 1] == c && c !in s[..|s| - |t| - 1]
  {
    var k := IndexOf(s, c);
    assert k == -1 ==> s[k + 1..] == s;
    s[k + 1..]
  }

  /**
   * The lamp-hours value of a device reply: all leading STX and all trailing
   * ETX characters are removed, then what follows the first '?' is kept.
   */
  function LampHours(rx: string): string
  {
    AfterFirst(TrimEnd(TrimStart(rx, STX), ETX), '?')
  }

  /**
   * The lamp hours are a piece of the reply itself, and never end in an ETX
   * marker.
   */
  lemma LampHoursInReply(rx: string)
    ensures Contains(rx, LampHours(rx))
    ensures var hours := LampHours(rx); hours == [] || hours[|hours| - 1] != ETX
  {
    var unframed := TrimStart(rx, STX);
    var core := TrimEnd(unframed, ETX);
    var hours := AfterFirst(core, '?');
    LeadingRun(rx, STX);
    TrailingRun(unframed, ETX);
    InMiddle(Repeat(STX, |rx| - |unframed|), core, Repeat(ETX, |unframed| - |core|), hours);
  }

  /** A text is the run of `c` TrimStart removes, followed by what it keeps. */
  lemma LeadingRun(s: string, c: char)
    ensures var r := TrimStart(s, c); s == Repeat(c, |s| - |r|) + r
  {
  }

  /** A text is what TrimEnd keeps, followed by the run of `c` it removes. */
  lemma TrailingRun(s: string, c: char)
    ensures var r := TrimEnd(s, c); s == r + Repeat(c, |s| - |r|)
  {
  }

  /** A suffix of the middle part of `a + m + b` occurs in it. */
  lemma InMiddle(a: string, m: string, b: string, x: string)
    requires |x| <= |m| && x == m[|m| - |x|..]
    ensures OccursAt(a + (m + b), x, |a| + |m| - |x|)
  {
    var s := a + (m + b);
    assert s[|a|..|a| + |m|] == m;
    assert s[|a| + |m| - |x|..|a| + |m|] == m[|m| - |x|..];
  }

  /** `n` copies of `c`. */
  function Repeat(c: char, n: nat): (r: string)
    ensures |r| == n
  {
    if n == 0 then [] else [c] + Repeat(c, n - 1)
  }

  lemma {:induction false} RepeatSnoc(c: char, n: nat)
    ensures Repeat(c, n) + [c] == Repeat(c, n + 1)
  {
    if n > 0 {
      RepeatSnoc(c, n - 1);
      assert Repeat(c, n) + [c] == [c] + (Repeat(c, n - 1) + [c]);
    }
  }

  lemma {:induction false} TrimStartRepeat(c: char, n: nat, body: string)
    requires body == [] || body[0] != c
    ensures TrimStart(Repeat(c, n) + body, c) == body
  {
    var s := Repeat(c, n) + body;
    if n == 0 {
      assert s == body;
    } else {
      assert s[0] == c;
      assert TrimStart(s, c) == TrimStart(s[1..], c);
      assert s[1..] == Repeat(c, n - 1) + body;
      TrimStartRepeat(c, n - 1, body);
    }
  }

  lemma {:induction false} TrimEndRepeat(c: char, n: nat, body: string)
    requires body == [] || body[|body| - 1] != c
    ensures TrimEnd(body + Repeat(c, n), c) == body
  {
    if n == 0 {
      assert body + Repeat(c, n) == body;
    } else {
      var shorter := body + Repeat(c, n - 1);
      RepeatSnoc(c, n - 1);
      assert body + Repeat(c, n) == shorter + [c];
      LastPeeled(shorter, c);
      TrimEndRepeat(c, n - 1, body);
    }
  }

  /** TrimEnd on a text ending in `c` trims that `c` and goes on. */
  lemma LastPeeled(s: string, c: char)
    ensures TrimEnd(s + [c], c) == TrimEnd(s, c)
  {
    var t := s + [c];
    assert t[..|t| - 1] == s;
  }

  /**
   * Round trip of the lamp-hours reply: a reply framed by any number of STX
   * and ETX markers, with a '?'-free echo before the first '?', yields back
   * exactly the value after it.
   */
  lemma {:induction false} LampHoursOfReply(starts: nat, echo: string, value: string, ends: nat)
    requires '?' !in echo
    requires echo == [] || echo[0] != STX
    requires value == [] || value[|value| - 1] != ETX
    ensures LampHours(Repeat(STX, starts) + echo + "?" + value + Repeat(ETX, ends)) == value
  {
    var body := echo + "?" + value;
    assert Repeat(STX, starts) + echo + "?" + value + Repeat(ETX, ends)
        == Repeat(STX, starts) + body + Repeat(ETX, ends);
    assert body[0] != STX by {
      assert body[0] == if echo == [] then '?' else echo[0];
    }
    assert body[|body| - 1] != ETX by {
      assert body[|body| - 1] == if value == [] then '?' else value[|value| - 1];
    }
    Unframe(starts, body, ends);
    AfterEcho(echo, value);
  }

  /** Trimming the markers off a framed reply gives back its body. */
  lemma Unframe(starts: nat, body: string, ends: nat)
    requires body != [] && body[0] != STX && body[|body| - 1] != ETX
    ensures TrimEnd(TrimStart(Repeat(STX, starts) + body + Repeat(ETX, ends), STX), ETX) == body
  {
    var tail := body + Repeat(ETX, ends);
    assert tail[0] == body[0];
    var rx := Repeat(STX, starts) + body + Repeat(ETX, ends);
    assert rx == Repeat(STX, starts) + tail;
    TrimStartRepeat(STX, starts, tail);
    TrimEndRepeat(ETX, ends, body);
  }

  lemma AfterEcho(echo: string, value: string)
    requires '?' !in echo
    ensures AfterFirst(echo + "?" + value, '?') == value
  {
    var body := echo + "?" + value;
    assert body[..|echo|] == echo;
    assert body[|echo|] == '?';
  }

  /** The reply to the lamp-hours query, "\x02LH?4821\x03", yields "4821". */
  lemma LampHoursExample()
    ensures LampHours("\U{02}LH?4821\U{03}") == "4821"
  {
    assert "\U{02}LH?4821\U{03}" == Repeat(STX, 1) + "LH" + "?" + "4821" + Repeat(ETX, 1);
    LampHoursOfReply(1, "LH", "4821", 1);
  }
}
