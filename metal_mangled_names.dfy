/** Mangled identifiers for the Metal back end (MetalMangledNames.h): a fixed
    prefix per kind of name followed by an unsigned 32-bit number in decimal. */
module MetalMangledNames {
  import opened Wrappers
  import opened Decimal

  newtype uint32 = x: int | 0 <= x < 0x1_0000_0000

  /** MangledFieldName, MangledFunctionName, MangledTypeName and MangledVariableName. */
  datatype MangledName =
    | MangledFieldName(value: uint32)
    | MangledFunctionName(value: uint32)
    | MangledTypeName(value: uint32)
    | MangledVariableName(value: uint32)

  /** The `prefix` constant of each kind. */
  function Prefix(name: MangledName): string
  {
    match name
    case MangledFieldName(_) => "field"
    case MangledFunctionName(_) => "fn"
    case MangledTypeName(_) => "type"
    case MangledVariableName(_) => "temp"
  }

  /** The full mangled name: the prefix, then the value's decimal digits. */
  function Mangled(name: MangledName): string
  {
    Prefix(name) + NatToString(name.value as nat)
  }

  /** MangledTypeAdapter::length: the prefix length plus the number of decimal
      digits of the value, which is the length of the mangled name. */
  function Length(name: MangledName): (n: nat)
    ensures n == |Mangled(name)|
    ensures n > |Prefix(name)|
  {
    LengthIsDigitCount(name.value as nat);
    |Prefix(name)| + DigitCount(name.value as nat)
  }

  /** MangledTypeAdapter::is8Bit: every character of a mangled name fits in 8 bits. */
  lemma MangledIsLatin1(name: MangledName)
    ensures forall i :: 0 <= i < |Mangled(name)| ==> Mangled(name)[i] as int < 256
  {
    var s := Mangled(name);
    forall i | 0 <= i < |s| ensures s[i] as int < 256 {
      if i >= |Prefix(name)| {
        assert s[i] == NatToString(name.value as nat)[i - |Prefix(name)|];
      }
    }
  }

  /** The value written after a prefix: a non-empty run of digits that fits in 32 bits. */
  function ValueOf(digits: string): Option<uint32>
  {
    if digits != [] && (forall i :: 0 <= i < |digits| ==> '0' <= digits[i] <= '9') && DigitsValue(digits) < 0x1_0000_0000
    then Some(DigitsValue(digits) as uint32)
    else None
  }

  predicate StartsWith(s: string, prefix: string)
  {
    |prefix| <= |s| && s[..|prefix|] == prefix
  }

  /** Reads a mangled name back: the kind from the prefix, the value from the digits. */
  function Unmangle(s: string): Option<MangledName>
  {
    if StartsWith(s, "field") then
      match ValueOf(s[5..]) case Some(v) => Some(MangledFieldName(v)) case None => None
    else if StartsWith(s, "fn") then
      match ValueOf(s[2..]) case Some(v) => Some(MangledFunctionName(v)) case None => None
    else if StartsWith(s, "type") then
      match ValueOf(s[4..]) case Some(v) => Some(MangledTypeName(v)) case None => None
    else if StartsWith(s, "temp") then
      match ValueOf(s[4..]) case Some(v) => Some(MangledVariableName(v)) case None => None
    else None
  }

  /** The digits after the prefix read back as the value. */
  lemma DigitsAfterPrefix(name: MangledName)
    ensures Mangled(name)[|Prefix(name)|..] == NatToString(name.value as nat)
    ensures ValueOf(NatToString(name.value as nat)) == Some(name.value)
  {
    NatToStringRoundTrip(name.value as nat);
  }

  /** Mangling loses nothing: reading a mangled name back gives the name. */
  lemma UnmangleMangled(name: MangledName)
    ensures Unmangle(Mangled(name)) == Some(name)
  {
    var s := Mangled(name);
    DigitsAfterPrefix(name);
    match name
    case MangledFieldName(_) =>
      assert StartsWith(s, "field");
    case MangledFunctionName(_) =>
      assert s[1] == 'n';
      assert !StartsWith(s, "field");
      assert StartsWith(s, "fn");
    case MangledTypeName(_) =>
      assert s[0] == 't' && s[1] == 'y';
      assert !StartsWith(s, "field") && !StartsWith(s, "fn");
      assert StartsWith(s, "type");
    case MangledVariableName(_) =>
      assert s[0] == 't' && s[1] == 'e';
      assert !StartsWith(s, "field") && !StartsWith(s, "fn") && !StartsWith(s, "type");
      assert StartsWith(s, "temp");
  }

  /** Distinct mangled names are written differently. */
  lemma MangledInjective(a: MangledName, b: MangledName)
    requires Mangled(a) == Mangled(b)
    ensures a == b
  {
    UnmangleMangled(a);
    UnmangleMangled(b);
  }

  /** Copies `text` into `destination` starting at `at`, and nothing else. */
  method WriteString(text: string, destination: array<char>, at: nat)
    requires at + |text| <= destination.Length
    modifies destination
    ensures destination[at..at + |text|] == text
    ensures forall i :: 0 <= i < destination.Length && !(at <= i < at + |text|) ==> destination[i] == old(destination[i])
  {
    var k := 0;
    while k < |text|
      invariant 0 <= k <= |text|
      invariant destination[at..at + k] == text[..k]
      invariant forall i :: 0 <= i < destination.Length && !(at <= i < at + k) ==> destination[i] == old(destination[i])
    {
      destination[at + k] := text[k];
      k := k + 1;
    }
  }

  /** writeIntegerToBuffer: writes the decimal digits of `value` at `at`, least
      significant digit last, and nothing else. */
  method WriteIntegerToBuffer(value: nat, destination: array<char>, at: nat)
    requires at + DigitCount(value) <= destination.Length
    modifies destination
    ensures destination[at..at + DigitCount(value)] == NatToString(value)
    ensures forall i :: 0 <= i < destination.Length && !(at <= i < at + DigitCount(value)) ==> destination[i] == old(destination[i])
  {
    LengthIsDigitCount(value);
    ghost var digits := NatToString(value);
    var n := DigitCount(value);
    var q := value;
    var i := n;
    while i > 0
      invariant 0 <= i <= n
      invariant i > 0 ==> NatToString(q) == digits[..i]
      invariant forall j :: i <= j < n ==> destination[at + j] == digits[j]
      invariant forall j :: 0 <= j < destination.Length && !(at + i <= j < at + n) ==> destination[j] == old(destination[j])
    {
      LastDigit(q, digits, i);
      i := i - 1;
      destination[at + i] := DigitChar(q % 10);
      q := q / 10;
    }
    assert destination[at..at + n] == digits;
  }

  /** MangledTypeAdapter::writeTo: the prefix at offset 0 from `at`, the digits at
      offset `prefix.length()`; exactly `Length(name)` characters are written. */
  method WriteTo(name: MangledName, destination: array<char>, at: nat)
    requires at + Length(name) <= destination.Length
    modifies destination
    ensures destination[at..at + Length(name)] == Mangled(name)
    ensures forall i :: 0 <= i < destination.Length && !(at <= i < at + Length(name)) ==> destination[i] == old(destination[i])
  {
    var prefix := Prefix(name);
    var n := DigitCount(name.value as nat);
    assert Length(name) == |prefix| + n;
    WriteString(prefix, destination, at);
    ghost var afterPrefix := destination[..];
    WriteIntegerToBuffer(name.value as nat, destination, at + |prefix|);
    assert destination[at..at + |prefix|] == afterPrefix[at..at + |prefix|];
    assert destination[at..at + |prefix| + n] == destination[at..at + |prefix|] + destination[at + |prefix|..at + |prefix| + n];
  }
}
