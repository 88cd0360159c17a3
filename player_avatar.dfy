/**
 * A player's avatar: a colour gradient picked by a string hash of the
 * player id, and the initials drawn from the id.
 */
module Avatar {
  const PALETTE: seq<string> := [
    "from-blue-500 to-blue-700", "from-purple-500 to-purple-700",
    "from-green-500 to-green-700", "from-red-500 to-red-700",
    "from-yellow-500 to-yellow-700", "from-pink-500 to-pink-700",
    "from-indigo-500 to-indigo-700", "from-teal-500 to-teal-700"]

  const TWO_32: int := 0x1_0000_0000
  const TWO_31: int := 0x8000_0000

  /** The ToInt32 conversion applied by the shift operator: wrap into [-2^31, 2^31). */
  function ToInt32(x: int): (r: int)
    ensures -TWO_31 <= r < TWO_31
    ensures (r - x) % TWO_32 == 0
  {
    var m := x % TWO_32;
    if m >= TWO_31 then m - TWO_32 else m
  }

  /** One step of the hash: `code + ((h << 5) - h)`; only the shift wraps. */
  function HashStep(h: int, c: char): int
  {
    c as int + (ToInt32(ToInt32(h) * 32) - h)
  }

  /** The hash of a prefix of the id, character by character. */
  function Hash(s: string): int
  {
    if s == [] then 0 else HashStep(Hash(s[..|s| - 1]), s[|s| - 1])
  }

  function Abs(x: int): nat
  {
    if x < 0 then -x else x
  }

  /** `getGradient`: the hash loop, then the palette entry at `|hash| % 8`. */
  method GetGradient(id: string) returns (r: string)
    ensures r == PALETTE[Abs(Hash(id)) % |PALETTE|]
  {
    var hash := 0;
    for i := 0 to |id|
      invariant hash == Hash(id[..i])
    {
      assert id[..i + 1][..i] == id[..i];
      hash := id[i] as int + ((ToInt32(ToInt32(hash) * 32)) - hash);
    }
    assert id[..|id|] == id;
    r := PALETTE[Abs(hash) % |PALETTE|];
  }

  /** Every id gets one of the eight gradients, and the empty id the first. */
  lemma GradientInPalette(id: string)
    ensures 0 <= Abs(Hash(id)) % |PALETTE| < 8
    ensures PALETTE[Abs(Hash(id)) % |PALETTE|] in PALETTE
    ensures id == "" ==> PALETTE[Abs(Hash(id)) % |PALETTE|] == "from-blue-500 to-blue-700"
  {
  }

  /** The hash grows by at most one character code plus 2^31 per step. */
  lemma {:induction false} HashBound(s: string)
    ensures Abs(Hash(s)) <= |s| * (TWO_31 + 0x11_0000)
  {
    if s != [] {
      HashBound(s[..|s| - 1]);
      assert (s[|s| - 1] as int) < 0x11_0000;
    }
  }

  /** `c.toUpperCase()` on the Basic Latin letters. */
  function UpperChar(c: char): char
  {
    if 'a' <= c <= 'z' then (c as int - 32) as char else c
  }

  /** `id.substring(0, 2).toUpperCase()`. */
  function GetInitials(id: string): (r: string)
    ensures |r| == if |id| < 2 then |id| else 2
    ensures forall i :: 0 <= i < |r| ==> r[i] == UpperChar(id[i])
  {
    var head := if |id| < 2 then id else id[..2];
    seq(|head|, i requires 0 <= i < |head| => UpperChar(head[i]))
  }

  /** The initials hold no lower-case Basic Latin letter and are their own initials. */
  lemma InitialsUpper(id: string)
    ensures forall i :: 0 <= i < |GetInitials(id)| ==> !('a' <= GetInitials(id)[i] <= 'z')
    ensures GetInitials(GetInitials(id)) == GetInitials(id)
  {
  }
}
