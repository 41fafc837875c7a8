/**
 * The initials avatar (src/components/ui/avatar.tsx): the initials of a user
 * name and a background colour picked from a ten-colour palette by a string
 * hash. A JavaScript string is a sequence of UTF-16 code units (what `length`,
 * `charCodeAt` and `split` see), so names here are sequences of code units.
 */
module Avatar {
  import opened Seqs

  type CodeUnit = c: int | 0 <= c < 0x1_0000

  const Space: CodeUnit := 32

  /** `toUpperCase` on one code unit, for ASCII letters. */
  function UpperUnit(c: CodeUnit): CodeUnit {
    if 97 <= c <= 122 then c - 32 else c
  }

  function UpperUnits(s: seq<CodeUnit>): (r: seq<CodeUnit>)
    ensures |r| == |s| && forall i :: 0 <= i < |s| ==> r[i] == UpperUnit(s[i])
  {
    if s == [] then [] else [UpperUnit(s[0])] + UpperUnits(s[1..])
  }

  /** `charAt(0)`: the first code unit, or the empty string. */
  function FirstUnit(s: seq<CodeUnit>): (r: seq<CodeUnit>)
    ensures |r| <= 1
  {
    if s == [] then [] else [s[0]]
  }

  /** `getInitials`. */
  function Initials(name: seq<CodeUnit>): (r: seq<CodeUnit>)
    ensures |r| <= 2
  {
    if name == [] then []
    else
      var parts := Split(name, Space);
      if |parts| == 1 then UpperUnits(FirstUnit(parts[0]))
      else UpperUnits(FirstUnit(parts[0]) + FirstUnit(parts[|parts| - 1]))
  }

  /** An empty name, and every name that starts and ends with a space (a name of spaces
      only, say), has no initials. */
  lemma NoWordsNoInitials(name: seq<CodeUnit>)
    requires name == [] || (name[0] == Space && name[|name| - 1] == Space)
    ensures Initials(name) == []
  {
    if name != [] {
      assert name[..0] == [] && name[|name|..] == [];
      InitialsOfSeveralWords(name, 0, |name| - 1);
    }
  }

  /** A name without spaces gives its first code unit, upper-cased. */
  lemma InitialsOfOneWord(name: seq<CodeUnit>)
    requires name != [] && Space !in name
    ensures Initials(name) == [UpperUnit(name[0])]
  {
    SplitSingle(name, Space);
  }

  /** A name with spaces gives the first code unit before the first space and the first code
      unit after the last space, upper-cased; the words in between do not matter (an empty
      first or last word contributes nothing). */
  lemma InitialsOfSeveralWords(name: seq<CodeUnit>, i: nat, j: nat)
    requires i <= j < |name| && name[i] == Space && name[j] == Space
    requires Space !in name[..i] && Space !in name[j + 1..]
    ensures Initials(name) == UpperUnits(FirstUnit(name[..i]) + FirstUnit(name[j + 1..]))
  {
    var parts := Split(name, Space);
    assert name[i] in name;
    SplitSingle(name, Space);
    SplitFirstPart(name, Space, i);
    SplitLastPart(name, Space, j);
    assert |parts| != 1 && parts[0] == name[..i] && parts[|parts| - 1] == name[j + 1..];
  }

  /** Two names that differ only in their middle words have the same initials. */
  lemma InitialsIgnoreMiddleWords(first: seq<CodeUnit>, middle: seq<CodeUnit>, last: seq<CodeUnit>)
    requires Space !in first && Space !in last
    ensures Initials(first + [Space] + middle + [Space] + last) == Initials(first + [Space] + last)
  {
    var a := first + [Space] + middle + [Space] + last;
    var b := first + [Space] + last;
    var ja := |first| + 1 + |middle|;
    assert a[..|first|] == first && a[ja + 1..] == last && a[|first|] == Space && a[ja] == Space;
    assert b[..|first|] == first && b[|first| + 1..] == last && b[|first|] == Space;
    InitialsOfSeveralWords(a, |first|, ja);
    InitialsOfSeveralWords(b, |first|, |first|);
  }

  // ---------------------------------------------------------------------------
  // The colour hash

  const Palette: seq<string> := ["#673AB7", "#9C27B0", "#E91E63", "#F44336", "#FF9800",
                                 "#FFC107", "#4CAF50", "#2196F3", "#03A9F4", "#00BCD4"]

  const TwoTo31: int := 0x8000_0000
  const TwoTo32: int := 0x1_0000_0000

  /** ECMAScript ToInt32: the 32-bit two's-complement integer congruent to `x` modulo 2^32. */
  function ToInt32(x: int): (r: int)
    ensures -TwoTo31 <= r < TwoTo31
    ensures (x - r) % TwoTo32 == 0
  {
    var m := x % TwoTo32;
    if m >= TwoTo31 then m - TwoTo32 else m
  }

  /** `v << 5` on an int32: the bits shifted out of 32 are lost. */
  function Shl5(v: int): int {
    ToInt32(v * 32)
  }

  /** One round of the loop: `hash = code + ((hash << 5) - hash)`. The shift sees `hash`
      through ToInt32, the subtraction sees the whole number. */
  function HashStep(hash: int, code: CodeUnit): int {
    code + (Shl5(ToInt32(hash)) - hash)
  }

  /** The hash of a name: the loop's value after all its code units, starting from 0. */
  function Hash(name: seq<CodeUnit>): int {
    if name == [] then 0 else HashStep(Hash(name[..|name| - 1]), name[|name| - 1])
  }

  function Abs(x: int): nat {
    if x >= 0 then x else -x
  }

  /** JavaScript's `a % b` on integers: the remainder takes the sign of the dividend. */
  function JsRem(a: int, b: int): (r: int)
    requires b > 0
    ensures Abs(r) == Abs(a) % b < b
    ensures a >= 0 ==> r >= 0
    ensures a < 0 ==> r <= 0
  {
    if a >= 0 then a % b else -((-a) % b)
  }

  /** `Math.abs(hash % colors.length)`. */
  function ColorIndex(hash: int): (i: nat)
    ensures i < |Palette|
    ensures i == Abs(hash) % |Palette|
  {
    Abs(JsRem(hash, |Palette|))
  }

  function ColorOf(name: seq<CodeUnit>): string {
    Palette[ColorIndex(Hash(name))]
  }

  /** Each round moves the hash by at most 2^31 + 0xFFFF. */
  lemma {:induction false} HashBound(name: seq<CodeUnit>)
    ensures Abs(Hash(name)) <= |name| * (TwoTo31 + 0xFFFF)
  {
    if name != [] {
      HashBound(name[..|name| - 1]);
    }
  }

  /** The page holds the hash in a double, whose integers are exact below 2^53 in magnitude:
      every name of at most 4,194,176 code units keeps the hash there. */
  lemma HashIsExactInDoubles(name: seq<CodeUnit>)
    requires |name| <= 4_194_176
    ensures -0x20_0000_0000_0000 < Hash(name) < 0x20_0000_0000_0000
  {
    HashBound(name);
    MulLeMonotone(|name|, 4_194_176, TwoTo31 + 0xFFFF);
  }

  lemma MulLeMonotone(a: nat, b: nat, k: nat)
    requires a <= b
    ensures a * k <= b * k
  {
  }

  /** Appending one code unit is one more round of the loop. */
  lemma HashAppend(name: seq<CodeUnit>, c: CodeUnit)
    ensures Hash(name + [c]) == HashStep(Hash(name), c)
  {
    assert (name + [c])[..|name|] == name;
  }

  /** `getBackgroundColor`. */
  method BackgroundColor(name: seq<CodeUnit>) returns (color: string)
    ensures color == ColorOf(name) && color in Palette
  {
    var hash := 0;
    for i := 0 to |name|
      invariant hash == Hash(name[..i])
    {
      assert name[..i + 1] == name[..i] + [name[i]];
      HashAppend(name[..i], name[i]);
      hash := name[i] + ((Shl5(ToInt32(hash))) - hash);
    }
    assert name[..|name|] == name;
    var index := Abs(JsRem(hash, |Palette|));
    color := Palette[index];
  }
}
