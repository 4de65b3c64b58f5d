/**
 * The three command frames the router hands to the projector client.
 * A frame is a four-character header (STX, 0x01, 0x00, 0x00), an ASCII
 * command token and a four-character trailer (0x00, 0x00, 0x00, ETX).
 */
module Frames {
  import opened Text

  const NUL: char := '\U{0}'

  /** Power on, exactly as the panel's join 22 sends it. */
  const PowerOnFrame: string := "\U{02}\U{01}\U{0}\U{0}PON\U{0}\U{0}\U{0}\U{03}"
  /** Power off, exactly as the panel's join 23 sends it. */
  const PowerOffFrame: string := "\U{02}\U{01}\U{0}\U{0}POFF\U{0}\U{0}\U{0}\U{03}"
  /** Lamp-hours query, exactly as the panel's join 24 sends it. */
  const LampHoursQueryFrame: string := "\U{02}\U{01}\U{0}\U{0}LH?\U{0}\U{0}\U{0}\U{03}"

  /** The four bytes before the token: STX, 0x01, 0x00, 0x00. */
  const Header: string := [STX, '\U{01}', NUL, NUL]
  /** The four bytes after the token: 0x00, 0x00, 0x00, ETX. */
  const Trailer: string := [NUL, NUL, NUL, ETX]

  /** The general shape of a command frame around `token`. */
  function Frame(token: string): (f: string)
    ensures |f| == 8 + |token|
    ensures f[0] == STX && f[|f| - 1] == ETX
    ensures f[..4] == Header && f[|f| - 4..] == Trailer
    ensures f[4..|f| - 4] == token
  {
    var f := Header + token + Trailer;
    assert f[..4] == Header;
    assert f[|f| - 4..] == Trailer;
    assert f[4..|f| - 4] == token;
    f
  }

  /**
   * A token free of the markers yields a frame that a receiver delimiting on
   * STX and ETX reads as exactly one frame: STX only first, ETX only last.
   */
  lemma FrameDelimited(token: string)
    requires STX !in token && ETX !in token
    ensures var f := Frame(token);
      && (forall i | 0 < i < |f| :: f[i] != STX)
      && (forall i | 0 <= i < |f| - 1 :: f[i] != ETX)
  {
    var f := Frame(token);
    forall i | 4 <= i < |f| - 4
      ensures f[i] != STX && f[i] != ETX
    {
      assert f[i] == f[4..|f| - 4][i - 4];
    }
  }

  /** The literal frames of the panel are the general frame of their tokens. */
  lemma CommandFramesAreFrames()
    ensures PowerOnFrame == Frame("PON")
    ensures PowerOffFrame == Frame("POFF")
    ensures LampHoursQueryFrame == Frame("LH?")
  {
  }
}
