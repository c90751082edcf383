/** Value types shared by the newsletter examples: identifiers, e-mail
    addresses and names, and the parsing of a subscription id from the text a
    job worker receives. */
module Domain {
  import opened Results

  /** The text form of a `java.util.UUID`. */
  type Uuid = string

  datatype SubscriptionId = SubscriptionId(value: Uuid)
  datatype Email = Email(value: string)
  datatype Name = Name(value: string)

  predicate IsHexDigit(c: char)
  {
    ('0' <= c <= '9') || ('a' <= c <= 'f') || ('A' <= c <= 'F')
  }

  predicate IsDashPosition(i: int)
  {
    i == 8 || i == 13 || i == 18 || i == 23
  }

  /** The canonical 8-4-4-4-12 hexadecimal form of a UUID. */
  predicate IsUuidText(s: string)
  {
    |s| == 36 &&
    forall i :: 0 <= i < 36 ==> if IsDashPosition(i) then s[i] == '-' else IsHexDigit(s[i])
  }

  function LowerHex(c: char): (r: char)
    requires IsHexDigit(c)
    ensures IsHexDigit(r) && !('A' <= r <= 'F')
    ensures 'A' <= c <= 'F' ==> r as int == c as int + 32
    ensures !('A' <= c <= 'F') ==> r == c
  {
    if 'A' <= c <= 'F' then (c as int + 32) as char else c
  }

  /** The text `UUID.toString` produces for a UUID read from `s`: hexadecimal digits in lower case. */
  function CanonicalUuid(s: string): (r: Uuid)
    requires IsUuidText(s)
    ensures IsUuidText(r)
    ensures forall i :: 0 <= i < 36 ==> r[i] == (if IsDashPosition(i) then '-' else LowerHex(s[i]))
  {
    seq(36, i requires 0 <= i < 36 => if IsDashPosition(i) then '-' else LowerHex(s[i]))
  }

  /** `SubscriptionId(UUID.fromString(s))`: fails with IllegalArgumentException on text that is not a UUID. */
  function ParseSubscriptionId(s: string): (r: Result<SubscriptionId>)
    ensures r.Success? <==> IsUuidText(s)
    ensures r.Success? ==> IsUuidText(r.value.value) && |r.value.value| == |s|
    ensures r.Failure? ==> r.error == IllegalArgument("Invalid UUID string: " + s)
  {
    if IsUuidText(s) then Success(SubscriptionId(CanonicalUuid(s)))
    else Failure(IllegalArgument("Invalid UUID string: " + s))
  }
}
