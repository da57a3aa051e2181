/**
 * The identity snapshots the providers hold, and the text form in which they are cached
 * in browser storage. `JSON.stringify`/`JSON.parse` are modelled by a length-prefixed field
 * encoding with a decoder: what matters to the providers is that a snapshot written to the
 * cache reads back as the same snapshot and that other text is recognised as malformed.
 */
module Profiles {
  import opened Wrappers
  import opened JsValues

  datatype Dealer = Dealer(id: nat, companyName: string, contactName: string)

  datatype User = User(id: nat, email: string, firstName: string, lastName: string)

  /** One field: its length in decimal, a colon, then the text itself. */
  function EncodeField(f: string): string {
    NatToString(|f|) + ":" + f
  }

  function EncodeFields(fs: seq<string>): string {
    if fs == [] then "" else EncodeField(fs[0]) + EncodeFields(fs[1..])
  }

  /** Splits one field off the front of `s`, giving the field and what follows it. */
  function DecodeField(s: string): (r: Option<(string, string)>)
    ensures r.Some? ==> |r.value.1| < |s|
  {
    var k := LeadingDigits(s);
    if k == 0 || k >= |s| || s[k] != ':' then None
    else
      var n := DigitsValue(s[..k]);
      if k + 1 + n > |s| then None else Some((s[k + 1..k + 1 + n], s[k + 1 + n..]))
  }

  /** Exactly `count` fields and nothing after them. */
  function DecodeFields(s: string, count: nat): Option<seq<string>> {
    if count == 0 then
      if s == "" then Some([]) else None
    else
      match DecodeField(s)
      case None => None
      case Some((f, rest)) =>
        match DecodeFields(rest, count - 1)
        case None => None
        case Some(fs) => Some([f] + fs)
  }

  lemma DecodeEncodedField(f: string, rest: string)
    ensures DecodeField(EncodeField(f) + rest) == Some((f, rest))
  {
    var digits := NatToString(|f|);
    var s := EncodeField(f) + rest;
    assert s == digits + [':'] + (f + rest);
    LeadingDigitsStopsAt(digits, ':', f + rest);
    var k := |digits|;
    assert s[..k] == digits;
    DigitsValueOfNatToString(|f|);
    assert s[k + 1..k + 1 + |f|] == f;
    assert s[k + 1 + |f|..] == rest;
  }

  lemma {:induction false} DecodeEncodedFields(fs: seq<string>)
    ensures DecodeFields(EncodeFields(fs), |fs|) == Some(fs)
  {
    if fs != [] {
      DecodeEncodedField(fs[0], EncodeFields(fs[1..]));
      DecodeEncodedFields(fs[1..]);
      assert [fs[0]] + fs[1..] == fs;
    }
  }

  function EncodeUser(u: User): string {
    EncodeFields([NatToString(u.id), u.email, u.firstName, u.lastName])
  }

  /** The cached text of a user, or `None` where `JSON.parse` would throw. */
  function DecodeUser(s: string): Option<User> {
    match DecodeFields(s, 4)
    case Some(fs) =>
      if |fs| == 4 && |fs[0]| > 0 && AllDigits(fs[0]) then Some(User(DigitsValue(fs[0]), fs[1], fs[2], fs[3]))
      else None
    case None => None
  }

  /** A cached user snapshot reads back as the same user. */
  lemma DecodeEncodedUser(u: User)
    ensures DecodeUser(EncodeUser(u)) == Some(u)
  {
    DecodeEncodedFields([NatToString(u.id), u.email, u.firstName, u.lastName]);
    DigitsValueOfNatToString(u.id);
  }

  function EncodeDealer(d: Dealer): string {
    EncodeFields([NatToString(d.id), d.companyName, d.contactName])
  }

  function DecodeDealer(s: string): Option<Dealer> {
    match DecodeFields(s, 3)
    case Some(fs) =>
      if |fs| == 3 && |fs[0]| > 0 && AllDigits(fs[0]) then Some(Dealer(DigitsValue(fs[0]), fs[1], fs[2]))
      else None
    case None => None
  }

  lemma DecodeEncodedDealer(d: Dealer)
    ensures DecodeDealer(EncodeDealer(d)) == Some(d)
  {
    DecodeEncodedFields([NatToString(d.id), d.companyName, d.contactName]);
    DigitsValueOfNatToString(d.id);
  }
}
