/** The pydantic `Dairy` model and its random public identifier. */
module DairyModel {
  import opened Common

  /** `string.ascii_uppercase + string.digits` */
  const IdAlphabet: string := "ABCDEFGHIJKLMNOPQRSTUVWXYZ0123456789"

  const DairyIdLength: nat := 6

  /** One random choice from the alphabet, as a position in it. */
  type Pick = i: int | 0 <= i < 36

  /** The six independent choices `random.choices(..., k=6)` makes. */
  type Draw = s: seq<Pick> | |s| == 6 witness [0, 0, 0, 0, 0, 0]

  predicate IsIdChar(c: char) {
    'A' <= c <= 'Z' || '0' <= c <= '9'
  }

  /** A public dairy identifier: six characters from A-Z and 0-9. */
  predicate ValidDairyId(s: string) {
    |s| == DairyIdLength && forall k :: 0 <= k < |s| ==> IsIdChar(s[k])
  }

  /** The alphabet's character at a position: A-Z, then 0-9. */
  function IdChar(p: Pick): (c: char)
    ensures IsIdChar(c)
    ensures c == IdAlphabet[p]
  {
    if p < 26 then ('A' as int + p) as char else ('0' as int + p - 26) as char
  }

  /** The position of an identifier character in the alphabet. */
  function PickOf(c: char): (p: Pick)
    requires IsIdChar(c)
    ensures IdChar(p) == c
  {
    if 'A' <= c <= 'Z' then c as int - 'A' as int else c as int - '0' as int + 26
  }

  /** `generate_dairy_id`, given the random choices it makes. */
  function GenerateDairyId(d: Draw): (id: string)
    ensures ValidDairyId(id)
    ensures forall k :: 0 <= k < DairyIdLength ==> id[k] == IdAlphabet[d[k]]
  {
    seq(DairyIdLength, k requires 0 <= k < DairyIdLength => IdChar(d[k]))
  }

  /** Every valid identifier is generated by some draw. */
  lemma GenerateDairyIdOnto(id: string)
    requires ValidDairyId(id)
    ensures exists d: Draw :: GenerateDairyId(d) == id
  {
    var d: Draw := seq(DairyIdLength, k requires 0 <= k < DairyIdLength => PickOf(id[k]));
    assert GenerateDairyId(d) == id;
  }

  /** Distinct draws give distinct identifiers: uniform draws give uniform identifiers. */
  lemma GenerateDairyIdInjective(d1: Draw, d2: Draw)
    requires GenerateDairyId(d1) == GenerateDairyId(d2)
    ensures d1 == d2
  {
    forall k | 0 <= k < DairyIdLength
      ensures d1[k] == d2[k]
    {
      assert PickOf(IdChar(d1[k])) == d1[k];
      assert PickOf(IdChar(d2[k])) == d2[k];
    }
  }

  /** A dairy document as `model_dump(by_alias=True)` stores it (`id` under `_id`). */
  datatype DairyRecord = DairyRecord(
    id: string,
    ownerId: string,
    dairyId: string,
    name: string,
    address: string,
    customers: seq<string>,
    createdAt: Time)

  /** A create-dairy request body; the fields with defaults may be left out. */
  datatype DairyRequest = DairyRequest(
    id: Option<string>,
    ownerId: string,
    dairyId: Option<string>,
    name: string,
    address: string,
    customers: Option<seq<string>>,
    createdAt: Option<Time>)

  /**
   * The `Dairy` pydantic builds from a request: supplied fields are kept,
   * missing ones take their defaults, `uuidHex` for `id`, a generated
   * identifier from `draw` for `dairy_id`, no customers, and `now`.
   */
  function ParseDairy(req: DairyRequest, uuidHex: string, draw: Draw, now: Time): (d: DairyRecord)
    ensures d.ownerId == req.ownerId && d.name == req.name && d.address == req.address
    ensures d.id == req.id.GetOr(uuidHex)
    ensures req.dairyId.None? ==> d.dairyId == GenerateDairyId(draw) && ValidDairyId(d.dairyId)
    ensures req.dairyId.Some? ==> d.dairyId == req.dairyId.value
    ensures req.customers.None? ==> d.customers == []
    ensures req.customers.Some? ==> d.customers == req.customers.value
    ensures req.createdAt.None? ==> d.createdAt == now
    ensures req.createdAt.Some? ==> d.createdAt == req.createdAt.value
  {
    DairyRecord(req.id.GetOr(uuidHex), req.ownerId, req.dairyId.GetOr(GenerateDairyId(draw)),
                req.name, req.address, req.customers.GetOr([]), req.createdAt.GetOr(now))
  }
}
