/**
 The URL-safe base64 of section 5 of RFC 4648, as the application uses it: padded in audit
 cursors, unpadded in signed payloads. Decoding is the lenient one of the Python library:
 characters outside the alphabet are skipped, a complete pad ends the input, and only an
 unfinished group is an error.
 */
module Base64Url {
  import opened Wrappers

  type Byte = b: nat | b < 256

  const PAD := '='

  function Digit(v: nat): char
    requires v < 64
  {
    if v < 26 then 'A' + v as char
    else if v < 52 then 'a' + (v - 26) as char
    else if v < 62 then '0' + (v - 52) as char
    else if v == 62 then '-'
    else '_'
  }

  /** The value of a character; the standard alphabet's `+` and `/` are read as well. */
  function Value(c: char): Option<nat> {
    if 'A' <= c <= 'Z' then Some((c - 'A') as nat)
    else if 'a' <= c <= 'z' then Some((c - 'a') as nat + 26)
    else if '0' <= c <= '9' then Some((c - '0') as nat + 52)
    else if c == '-' || c == '+' then Some(62)
    else if c == '_' || c == '/' then Some(63)
    else None
  }

  function Group(b0: Byte, b1: Byte, b2: Byte): string {
    [Digit(b0 / 4), Digit(b0 % 4 * 16 + b1 / 16), Digit(b1 % 16 * 4 + b2 / 64), Digit(b2 % 64)]
  }

  function EncodePadded(data: seq<Byte>): string {
    if |data| == 0 then ""
    else if |data| == 1 then Group(data[0], 0, 0)[..2] + [PAD, PAD]
    else if |data| == 2 then Group(data[0], data[1], 0)[..3] + [PAD]
    else Group(data[0], data[1], data[2]) + EncodePadded(data[3..])
  }

  function StripPad(s: string): string {
    if s != "" && s[|s| - 1] == PAD then StripPad(s[..|s| - 1]) else s
  }

  function Encode(data: seq<Byte>): string {
    StripPad(EncodePadded(data))
  }

  /**
   One pass over the input: `quad` characters of the current group have been read, `left` holds
   the bits not written yet, `pads` counts consecutive pads.
   */
  function DecodeFrom(s: string, quad: nat, left: nat, pads: nat): Option<seq<Byte>>
    requires quad < 4 && left < 64 && (quad == 2 ==> left < 16) && (quad == 3 ==> left < 4)
  {
    if s == "" then (if quad == 0 then Some([]) else None)
    else if s[0] == PAD then
      if quad >= 2 && quad + pads + 1 >= 4 then Some([])
      else DecodeFrom(s[1..], quad, left, if quad >= 2 then pads + 1 else pads)
    else
      match Value(s[0])
      case None => DecodeFrom(s[1..], quad, left, pads)
      case Some(v) =>
        if quad == 0 then DecodeFrom(s[1..], 1, v, 0)
        else if quad == 1 then Prepend(left * 4 + v / 16, DecodeFrom(s[1..], 2, v % 16, 0))
        else if quad == 2 then Prepend(left * 16 + v / 4, DecodeFrom(s[1..], 3, v % 4, 0))
        else Prepend(left * 64 + v, DecodeFrom(s[1..], 0, 0, 0))
  }

  function Prepend(b: Byte, rest: Option<seq<Byte>>): Option<seq<Byte>> {
    if rest.None? then None else Some([b] + rest.value)
  }

  function DecodePadded(s: string): Option<seq<Byte>> {
    DecodeFrom(s, 0, 0, 0)
  }

  /** Restores the padding the encoder stripped, then decodes. */
  function Decode(s: string): Option<seq<Byte>> {
    DecodePadded(s + Missing(s))
  }

  function Pads(n: nat): string {
    seq(n, _ => PAD)
  }

  predicate InAlphabet(c: char) {
    Value(c).Some? && c != '+' && c != '/'
  }

  lemma DigitValue(v: nat)
    requires v < 64
    ensures Value(Digit(v)) == Some(v) && InAlphabet(Digit(v)) && Digit(v) != PAD
  {
  }

  lemma GroupDigits(b0: Byte, b1: Byte, b2: Byte)
    ensures |Group(b0, b1, b2)| == 4
    ensures forall i :: 0 <= i < 4 ==> InAlphabet(Group(b0, b1, b2)[i]) && Group(b0, b1, b2)[i] != PAD
  {
    DigitValue(b0 / 4);
    DigitValue(b0 % 4 * 16 + b1 / 16);
    DigitValue(b1 % 16 * 4 + b2 / 64);
    DigitValue(b2 % 64);
  }

  // --- Decoding inverts encoding ---

  /** One digit read in each of the four positions of a group. */
  lemma DigitDecodes(v: nat, rest: string, left: nat)
    requires v < 64 && left < 64
    ensures DecodeFrom([Digit(v)] + rest, 0, 0, 0) == DecodeFrom(rest, 1, v, 0)
    ensures DecodeFrom([Digit(v)] + rest, 1, left, 0) == Prepend(left * 4 + v / 16, DecodeFrom(rest, 2, v % 16, 0))
    ensures left < 16 ==>
              DecodeFrom([Digit(v)] + rest, 2, left, 0) == Prepend(left * 16 + v / 4, DecodeFrom(rest, 3, v % 4, 0))
    ensures left < 4 ==>
              DecodeFrom([Digit(v)] + rest, 3, left, 0) == Prepend(left * 64 + v, DecodeFrom(rest, 0, 0, 0))
  {
    DigitValue(v);
    assert ([Digit(v)] + rest)[1..] == rest;
  }

  lemma GroupDecodes(b0: Byte, b1: Byte, b2: Byte, rest: string)
    ensures DecodePadded(Group(b0, b1, b2) + rest) == Prepend(b0, Prepend(b1, Prepend(b2, DecodePadded(rest))))
  {
    var third := [Digit(b1 % 16 * 4 + b2 / 64)] + ([Digit(b2 % 64)] + rest);
    TwoDigitsDecode(b0, b1, third);
    assert Group(b0, b1, b2) + rest == [Digit(b0 / 4), Digit(b0 % 4 * 16 + b1 / 16)] + third;
    ThirdDigitDecodes(b1, b2, [Digit(b2 % 64)] + rest);
    DigitDecodes(b2 % 64, rest, b2 / 64);
  }

  lemma TwoBytesDecode(b0: Byte, b1: Byte)
    ensures DecodePadded(Group(b0, b1, 0)[..3] + [PAD]) == Some([b0, b1])
  {
    var third := [Digit(b1 % 16 * 4 + 0)] + [PAD];
    TwoDigitsDecode(b0, b1, third);
    assert Group(b0, b1, 0)[..3] + [PAD] == [Digit(b0 / 4), Digit(b0 % 4 * 16 + b1 / 16)] + third;
    ThirdDigitDecodes(b1, 0, [PAD]);
    assert DecodeFrom([PAD], 3, 0, 0) == Some([]);
    assert [b0] + ([b1] + []) == [b0, b1];
  }

  lemma OneByteDecodes(b0: Byte)
    ensures DecodePadded(Group(b0, 0, 0)[..2] + [PAD, PAD]) == Some([b0])
  {
    TwoDigitsDecode(b0, 0, [PAD, PAD]);
    assert Group(b0, 0, 0)[..2] + [PAD, PAD] == [Digit(b0 / 4), Digit(b0 % 4 * 16 + 0)] + [PAD, PAD];
    assert [PAD, PAD][1..] == [PAD];
    assert DecodeFrom([PAD, PAD], 2, 0, 0) == DecodeFrom([PAD], 2, 0, 1) == Some([]);
    assert [b0] + [] == [b0];
  }

  lemma SecondDigitDecodes(b0: Byte, b1: Byte, rest: string)
    ensures DecodeFrom([Digit(b0 % 4 * 16 + b1 / 16)] + rest, 1, b0 / 4, 0)
            == Prepend(b0, DecodeFrom(rest, 2, b1 / 16, 0))
  {
    DigitDecodes(b0 % 4 * 16 + b1 / 16, rest, b0 / 4);
  }

  lemma TwoDigitsDecode(b0: Byte, b1: Byte, rest: string)
    ensures DecodePadded([Digit(b0 / 4), Digit(b0 % 4 * 16 + b1 / 16)] + rest)
            == Prepend(b0, DecodeFrom(rest, 2, b1 / 16, 0))
  {
    var second := b0 % 4 * 16 + b1 / 16;
    assert [Digit(b0 / 4), Digit(second)] + rest == [Digit(b0 / 4)] + ([Digit(second)] + rest);
    DigitDecodes(b0 / 4, [Digit(second)] + rest, 0);
    SecondDigitDecodes(b0, b1, rest);
  }

  lemma ThirdDigitDecodes(b1: Byte, b2: Byte, rest: string)
    ensures DecodeFrom([Digit(b1 % 16 * 4 + b2 / 64)] + rest, 2, b1 / 16, 0)
            == Prepend(b1, DecodeFrom(rest, 3, b2 / 64, 0))
  {
    var v := b1 % 16 * 4 + b2 / 64;
    assert v / 4 == b1 % 16 && v % 4 == b2 / 64 && b1 / 16 * 16 + v / 4 == b1;
    DigitDecodes(v, rest, b1 / 16);
  }

  lemma {:induction false} DecodePaddedInvertsEncodePadded(data: seq<Byte>)
    ensures DecodePadded(EncodePadded(data)) == Some(data)
  {
    if |data| == 1 {
      OneByteDecodes(data[0]);
      assert data == [data[0]];
    } else if |data| == 2 {
      TwoBytesDecode(data[0], data[1]);
      assert data == [data[0], data[1]];
    } else if |data| > 2 {
      DecodePaddedInvertsEncodePadded(data[3..]);
      GroupDecodes(data[0], data[1], data[2], EncodePadded(data[3..]));
      assert data == [data[0]] + ([data[1]] + ([data[2]] + data[3..]));
    }
  }

  // --- The unpadded form ---

  lemma StripPads(digits: string, n: nat)
    requires digits != "" ==> digits[|digits| - 1] != PAD
    ensures StripPad(digits + Pads(n)) == digits
  {
    if n == 0 {
      assert digits + Pads(n) == digits;
    } else {
      assert (digits + Pads(n))[..|digits + Pads(n)| - 1] == digits + Pads(n - 1);
      StripPads(digits, n - 1);
    }
  }

  lemma StripAfter(group: string, s: string)
    requires group != "" && group[|group| - 1] != PAD
    ensures StripPad(group + s) == group + StripPad(s)
  {
    if s == "" {
      assert group + s == group;
    } else if s[|s| - 1] == PAD {
      assert (group + s)[..|group + s| - 1] == group + s[..|s| - 1];
      StripAfter(group, s[..|s| - 1]);
    }
  }

  /** What `Decode` adds back before decoding. */
  function Missing(s: string): string {
    Pads((4 - |s| % 4) % 4)
  }

  /** The padded form is the unpadded one, made of alphabet characters only, and its pads. */
  lemma {:induction false} PaddedForm(data: seq<Byte>)
    ensures forall c :: c in Encode(data) ==> InAlphabet(c)
    ensures EncodePadded(data) == Encode(data) + Missing(Encode(data))
  {
    if |data| == 1 {
      GroupDigits(data[0], 0, 0);
      assert EncodePadded(data) == Group(data[0], 0, 0)[..2] + Pads(2);
      StripPads(Group(data[0], 0, 0)[..2], 2);
    } else if |data| == 2 {
      GroupDigits(data[0], data[1], 0);
      assert EncodePadded(data) == Group(data[0], data[1], 0)[..3] + Pads(1);
      StripPads(Group(data[0], data[1], 0)[..3], 1);
    } else if |data| > 2 {
      PaddedForm(data[3..]);
      GroupDigits(data[0], data[1], data[2]);
      StripAfter(Group(data[0], data[1], data[2]), EncodePadded(data[3..]));
      MissingAfterGroup(Group(data[0], data[1], data[2]), Encode(data[3..]));
    }
  }

  lemma MissingAfterGroup(group: string, digits: string)
    requires |group| == 4
    ensures Missing(group + digits) == Missing(digits)
    ensures group + (digits + Missing(digits)) == (group + digits) + Missing(group + digits)
  {
    assert |group + digits| % 4 == |digits| % 4;
  }

  /** Section 5 of RFC 4648, unpadded: decoding inverts encoding for every byte string. */
  lemma DecodeInvertsEncode(data: seq<Byte>)
    ensures Decode(Encode(data)) == Some(data)
    ensures '.' !in Encode(data) && (data != [] ==> Encode(data) != "")
  {
    PaddedForm(data);
    DecodePaddedInvertsEncodePadded(data);
    if Encode(data) == "" {
      assert DecodePadded("") == Some([]);
    }
  }

  // --- What is refused ---

  /** How many characters of a text are read as digits. */
  function DigitCount(s: string): nat {
    if s == "" then 0 else (if Value(s[0]).Some? then 1 else 0) + DigitCount(s[1..])
  }

  /** Without pads, a text decodes exactly when its digits make whole groups; each group gives three bytes. */
  lemma {:induction false} PadFreeDecodesIff(s: string, quad: nat, left: nat, pads: nat)
    requires PAD !in s && quad < 4 && left < 64 && (quad == 2 ==> left < 16) && (quad == 3 ==> left < 4)
    ensures DecodeFrom(s, quad, left, pads).Some? <==> (quad + DigitCount(s)) % 4 == 0
    ensures DecodeFrom(s, quad, left, pads).Some? ==>
              4 * (|DecodeFrom(s, quad, left, pads).value| + (if quad == 0 then 0 else quad - 1))
              == 3 * (quad + DigitCount(s))
    decreases s
  {
    if s != "" {
      match Value(s[0])
      case None => PadFreeDecodesIff(s[1..], quad, left, pads);
      case Some(v) =>
        if quad == 0 {
          PadFreeDecodesIff(s[1..], 1, v, 0);
        } else if quad == 1 {
          PadFreeDecodesIff(s[1..], 2, v % 16, 0);
        } else if quad == 2 {
          PadFreeDecodesIff(s[1..], 3, v % 4, 0);
        } else {
          PadFreeDecodesIff(s[1..], 0, 0, 0);
        }
    }
  }

  /** Characters outside the alphabet, pads aside, might as well not be there. */
  lemma {:induction false} JunkIsSkipped(s: string, junk: char, t: string, quad: nat, left: nat, pads: nat)
    requires Value(junk).None? && junk != PAD
    requires quad < 4 && left < 64 && (quad == 2 ==> left < 16) && (quad == 3 ==> left < 4)
    ensures DecodeFrom(s + [junk] + t, quad, left, pads) == DecodeFrom(s + t, quad, left, pads)
    decreases s
  {
    if s == "" {
      assert s + [junk] + t == [junk] + t && s + t == t && ([junk] + t)[1..] == t;
    } else {
      assert (s + [junk] + t)[1..] == s[1..] + [junk] + t && (s + t)[1..] == s[1..] + t;
      if s[0] == PAD {
        if !(quad >= 2 && quad + pads + 1 >= 4) {
          JunkIsSkipped(s[1..], junk, t, quad, left, if quad >= 2 then pads + 1 else pads);
        }
      } else {
        match Value(s[0])
        case None => JunkIsSkipped(s[1..], junk, t, quad, left, pads);
        case Some(v) =>
          if quad == 0 {
            JunkIsSkipped(s[1..], junk, t, 1, v, 0);
          } else if quad == 1 {
            JunkIsSkipped(s[1..], junk, t, 2, v % 16, 0);
          } else if quad == 2 {
            JunkIsSkipped(s[1..], junk, t, 3, v % 4, 0);
          } else {
            JunkIsSkipped(s[1..], junk, t, 0, 0, 0);
          }
      }
    }
  }

  /** A pad is skipped in the first half of a group; in the second, enough of them in a row end the text. */
  lemma {:induction false} PadsAreCounted(n: nat, rest: string, quad: nat, left: nat)
    requires quad < 4 && left < 64 && (quad == 2 ==> left < 16) && (quad == 3 ==> left < 4) && n + quad <= 4
    ensures DecodeFrom(Pads(n) + rest, quad, left, 0)
            == if quad >= 2 && n + quad == 4 && n > 0 then Some([])
               else DecodeFrom(rest, quad, left, if quad >= 2 then n else 0)
  {
    PadsFrom(n, rest, quad, left, 0);
  }

  lemma {:induction false} PadsFrom(n: nat, rest: string, quad: nat, left: nat, pads: nat)
    requires quad < 4 && left < 64 && (quad == 2 ==> left < 16) && (quad == 3 ==> left < 4)
    requires if quad >= 2 then n > 0 ==> pads + n + quad <= 4 else pads == 0
    ensures DecodeFrom(Pads(n) + rest, quad, left, pads)
            == if quad >= 2 && n > 0 && pads + n + quad == 4 then Some([])
               else DecodeFrom(rest, quad, left, if quad >= 2 then pads + n else 0)
    decreases n
  {
    if n == 0 {
      assert Pads(0) + rest == rest;
    } else {
      assert (Pads(n) + rest)[0] == PAD && (Pads(n) + rest)[1..] == Pads(n - 1) + rest;
      if quad < 2 {
        PadsFrom(n - 1, rest, quad, left, 0);
      } else if quad + pads + 1 < 4 {
        PadsFrom(n - 1, rest, quad, left, pads + 1);
      }
    }
  }
}
