/** Admission tickets: `sign` and `VerifyAdmission`, over the concrete text of a ticket. The
    message authentication code (section 2 of RFC 2104) is any function with 32-byte results. */
module Tickets {
  import opened Basics
  import opened TicketText

  datatype Claims = Claims(
    schema: int, user: Bytes, worker: Bytes, boot: Bytes, room: Bytes, allocation: Bytes, reservation: Bytes,
    seat: int, epoch: int, exp: int, nonce: Bytes, resume: bool)

  // ---- The JSON object ------------------------------------------------------------------------

  datatype Field = Text(text: Bytes) | Num(number: int) | Flag(flag: bool)

  datatype Kind = IsText | IsNum | IsFlag

  function KindOf(f: Field): Kind {
    match f case Text(_) => IsText case Num(_) => IsNum case Flag(_) => IsFlag
  }

  const True: Bytes := [116, 114, 117, 101]
  const False: Bytes := [102, 97, 108, 115, 101]

  function WriteValue(f: Field): Bytes {
    match f
    case Text(t) => [34] + Escape(t) + [34]
    case Num(n) => Number(n)
    case Flag(b) => if b then True else False
  }

  /** A literal text at the front, and what follows it. */
  function Skip(word: Bytes, s: Bytes): Option<Bytes> {
    if |word| <= |s| && s[..|word|] == word then Some(s[|word|..]) else None
  }

  lemma SkipWord(word: Bytes, rest: Bytes)
    ensures Skip(word, word + rest) == Some(rest)
  {
    assert (word + rest)[..|word|] == word && (word + rest)[|word|..] == rest;
  }

  function ReadValue(k: Kind, s: Bytes): Option<(Field, Bytes)> {
    match k
    case IsText =>
      if s == [] || s[0] != 34 then None
      else (match Unescape(s[1..]) case None => None case Some(r) => Some((Text(r.0), r.1)))
    case IsNum =>
      (match ReadNumber(s) case None => None case Some(r) => Some((Num(r.0), r.1)))
    case IsFlag =>
      (match Skip(True, s)
       case Some(r) => Some((Flag(true), r))
       case None => (match Skip(False, s) case Some(r) => Some((Flag(false), r)) case None => None))
  }

  lemma TextRoundTrip(t: Bytes, rest: Bytes)
    ensures ReadValue(IsText, WriteValue(Text(t)) + rest) == Some((Text(t), rest))
  {
    StringRoundTrip(t, rest);
    var s := WriteValue(Text(t)) + rest;
    Regroup([34] + Escape(t), [34], rest);
    Regroup([34], Escape(t), [34] + rest);
    assert s == [34] + (Escape(t) + ([34] + rest));
    assert s[1..] == Escape(t) + ([34] + rest);
  }

  lemma FlagRoundTrip(b: bool, rest: Bytes)
    ensures ReadValue(IsFlag, WriteValue(Flag(b)) + rest) == Some((Flag(b), rest))
  {
    SkipWord(True, rest);
    SkipWord(False, rest);
    assert (False + rest)[..4][0] == 102 && True[0] == 116;
  }

  lemma ValueRoundTrip(f: Field, rest: Bytes)
    requires rest != [] && !Digit(rest[0])
    ensures ReadValue(KindOf(f), WriteValue(f) + rest) == Some((f, rest))
  {
    match f
    case Text(t) => TextRoundTrip(t, rest);
    case Num(n) => NumberRoundTrip(n, rest);
    case Flag(b) => FlagRoundTrip(b, rest);
  }

  /** `"name":` */
  function Label(name: Bytes): Bytes {
    [34] + name + [34, 58]
  }

  function Ending(last: bool): Bytes {
    if last then [125] else [44]
  }

  /** The members of an object, up to its closing brace. */
  function WriteMembers(names: seq<Bytes>, fs: seq<Field>): Bytes
    requires |names| == |fs|
  {
    if fs == [] then []
    else Label(names[0]) + (WriteValue(fs[0]) + (Ending(|fs| == 1) + WriteMembers(names[1..], fs[1..])))
  }

  function ReadMembers(names: seq<Bytes>, kinds: seq<Kind>, s: Bytes): Option<(seq<Field>, Bytes)>
    requires |names| == |kinds|
  {
    if names == [] then Some(([], s))
    else
      match Skip(Label(names[0]), s)
      case None => None
      case Some(a) =>
        match ReadValue(kinds[0], a)
        case None => None
        case Some(v) =>
          match Skip(Ending(|names| == 1), v.1)
          case None => None
          case Some(b) =>
            match ReadMembers(names[1..], kinds[1..], b)
            case None => None
            case Some(r) => Some(([v.0] + r.0, r.1))
  }

  function Kinds(fs: seq<Field>): (ks: seq<Kind>)
    ensures |ks| == |fs| && forall i | 0 <= i < |fs| :: ks[i] == KindOf(fs[i])
  {
    seq(|fs|, i requires 0 <= i < |fs| => KindOf(fs[i]))
  }

  lemma {:induction false} MembersRoundTrip(names: seq<Bytes>, fs: seq<Field>)
    requires |names| == |fs|
    ensures ReadMembers(names, Kinds(fs), WriteMembers(names, fs)) == Some((fs, []))
  {
    if fs != [] {
      MembersRoundTrip(names[1..], fs[1..]);
      assert Kinds(fs)[1..] == Kinds(fs[1..]);
      var rest := WriteMembers(names[1..], fs[1..]);
      var c := Ending(|fs| == 1) + rest;
      SkipWord(Label(names[0]), WriteValue(fs[0]) + c);
      ValueRoundTrip(fs[0], c);
      SkipWord(Ending(|fs| == 1), rest);
      assert [fs[0]] + fs[1..] == fs;
    }
  }

  function Fields(c: Claims): seq<Field> {
    [Num(c.schema), Text(c.user), Text(c.worker), Text(c.boot), Text(c.room), Text(c.allocation), Text(c.reservation),
     Num(c.seat), Num(c.epoch), Num(c.exp), Text(c.nonce), Flag(c.resume)]
  }

  const ClaimKinds: seq<Kind> :=
    [IsNum, IsText, IsText, IsText, IsText, IsText, IsText, IsNum, IsNum, IsNum, IsText, IsFlag]

  function Ascii(s: string): Bytes
    requires forall i | 0 <= i < |s| :: s[i] < 128 as char
  {
    seq(|s|, i requires 0 <= i < |s| => s[i] as int)
  }

  const Names: seq<Bytes> :=
    [Ascii("schema_version"), Ascii("user_id"), Ascii("worker_id"), Ascii("boot_id"), Ascii("room_id"), Ascii("allocation_id"),
     Ascii("reservation_id"), Ascii("seat"), Ascii("epoch"), Ascii("exp"), Ascii("nonce"), Ascii("resume")]

  predicate Shaped(fs: seq<Field>) {
    |fs| == 12 && Kinds(fs) == ClaimKinds
  }

  function FromFields(fs: seq<Field>): Claims
    requires Shaped(fs)
  {
    assert forall i | 0 <= i < 12 :: KindOf(fs[i]) == ClaimKinds[i];
    Claims(fs[0].number, fs[1].text, fs[2].text, fs[3].text, fs[4].text, fs[5].text, fs[6].text,
           fs[7].number, fs[8].number, fs[9].number, fs[10].text, fs[11].flag)
  }

  function WriteClaims(c: Claims): Bytes {
    [123] + WriteMembers(Names, Fields(c))
  }

  function ReadClaims(s: Bytes): Option<Claims> {
    if s == [] || s[0] != 123 then None
    else
      match ReadMembers(Names, ClaimKinds, s[1..])
      case None => None
      case Some(r) => if r.1 == [] && Shaped(r.0) then Some(FromFields(r.0)) else None
  }

  /** Reading written claims gives them back. */
  lemma ClaimsRoundTrip(c: Claims)
    ensures ReadClaims(WriteClaims(c)) == Some(c)
  {
    var fs := Fields(c);
    assert Kinds(fs) == ClaimKinds;
    MembersRoundTrip(Names, fs);
    assert WriteClaims(c)[1..] == WriteMembers(Names, fs);
  }

  // ---- The text of the claims -------------------------------------------------------------------

  /** `"name":value` in front of the rest. */
  function Member(name: Bytes, value: Bytes, rest: Bytes): Bytes {
    [34] + name + [34, 58] + (value + rest)
  }

  function Quoted(t: Bytes): Bytes {
    [34] + Escape(t) + [34]
  }

  /** The claims as the issuer prints them, name by name. */
  function Layout(c: Claims): Bytes {
    [123] + Member(Ascii("schema_version"), Number(c.schema), [44] + LayoutOfUser(c))
  }

  function LayoutOfUser(c: Claims): Bytes {
    Member(Ascii("user_id"), Quoted(c.user), [44] +
    Member(Ascii("worker_id"), Quoted(c.worker), [44] +
    Member(Ascii("boot_id"), Quoted(c.boot), [44] +
    LayoutOfRoom(c))))
  }

  function LayoutOfRoom(c: Claims): Bytes {
    Member(Ascii("room_id"), Quoted(c.room), [44] +
    Member(Ascii("allocation_id"), Quoted(c.allocation), [44] +
    Member(Ascii("reservation_id"), Quoted(c.reservation), [44] +
    Member(Ascii("seat"), Number(c.seat), [44] +
    LayoutOfTime(c)))))
  }

  function LayoutOfTime(c: Claims): Bytes {
    Member(Ascii("epoch"), Number(c.epoch), [44] +
    Member(Ascii("exp"), Number(c.exp), [44] +
    Member(Ascii("nonce"), Quoted(c.nonce), [44] +
    Member(Ascii("resume"), if c.resume then Ascii("true") else Ascii("false"), [125]))))
  }

  lemma MemberStep(names: seq<Bytes>, fs: seq<Field>, i: nat, rest: Bytes)
    requires |names| == |fs| && i + 1 < |fs| && WriteMembers(names[i + 1..], fs[i + 1..]) == rest
    ensures WriteMembers(names[i..], fs[i..]) == Member(names[i], WriteValue(fs[i]), [44] + rest)
  {
    assert names[i..][1..] == names[i + 1..] && fs[i..][1..] == fs[i + 1..];
  }

  lemma LastMember(names: seq<Bytes>, fs: seq<Field>)
    requires |names| == |fs| && |fs| > 0
    ensures WriteMembers(names[|fs| - 1..], fs[|fs| - 1..]) == Member(names[|fs| - 1], WriteValue(fs[|fs| - 1]), [125])
  {
    var n, f := names[|fs| - 1..], fs[|fs| - 1..];
    assert WriteMembers(n[1..], f[1..]) == [];
    assert [125] + [] == [125];
  }

  lemma WordsAre()
    ensures Ascii("true") == True && Ascii("false") == False
  {
  }

  lemma TimeText(c: Claims)
    ensures WriteMembers(Names[8..], Fields(c)[8..]) == LayoutOfTime(c)
  {
    var fs := Fields(c);
    WordsAre();
    LastMember(Names, fs);
    MemberStep(Names, fs, 10, WriteMembers(Names[11..], fs[11..]));
    MemberStep(Names, fs, 9, WriteMembers(Names[10..], fs[10..]));
    MemberStep(Names, fs, 8, WriteMembers(Names[9..], fs[9..]));
  }

  lemma RoomText(c: Claims)
    ensures WriteMembers(Names[4..], Fields(c)[4..]) == LayoutOfRoom(c)
  {
    var fs := Fields(c);
    TimeText(c);
    MemberStep(Names, fs, 7, WriteMembers(Names[8..], fs[8..]));
    MemberStep(Names, fs, 6, WriteMembers(Names[7..], fs[7..]));
    MemberStep(Names, fs, 5, WriteMembers(Names[6..], fs[6..]));
    MemberStep(Names, fs, 4, WriteMembers(Names[5..], fs[5..]));
  }

  lemma UserText(c: Claims)
    ensures WriteMembers(Names[1..], Fields(c)[1..]) == LayoutOfUser(c)
  {
    var fs := Fields(c);
    RoomText(c);
    MemberStep(Names, fs, 3, WriteMembers(Names[4..], fs[4..]));
    MemberStep(Names, fs, 2, WriteMembers(Names[3..], fs[3..]));
    MemberStep(Names, fs, 1, WriteMembers(Names[2..], fs[2..]));
  }

  /** The claims are printed exactly so. */
  lemma ClaimsText(c: Claims)
    ensures WriteClaims(c) == Layout(c)
  {
    var fs := Fields(c);
    UserText(c);
    MemberStep(Names, fs, 0, LayoutOfUser(c));
    assert Names[0..] == Names && fs[0..] == fs;
  }

  // ---- sign and VerifyAdmission ---------------------------------------------------------------

  type Mac = (Bytes, Bytes) -> Bytes

  function Sign(mac: Mac, key: Bytes, c: Claims): Bytes {
    var payload := Encode(WriteClaims(c));
    payload + [46] + Encode(mac(key, payload))
  }

  /** The two parts around the only dot. */
  function Split(token: Bytes): Option<(Bytes, Bytes)> {
    if 46 !in token then None
    else
      var i := FirstDot(token);
      if 46 in token[i + 1..] then None else Some((token[..i], token[i + 1..]))
  }

  function FirstDot(token: Bytes): (i: nat)
    requires 46 in token
    ensures i < |token| && token[i] == 46 && forall j | 0 <= j < i :: token[j] != 46
  {
    if token[0] == 46 then 0 else 1 + FirstDot(token[1..])
  }

  datatype Verdict = Admitted(claims: Claims) | Refused

  predicate Admissible(c: Claims, now: int) {
    && c.schema == 1 && c.user != [] && c.worker != [] && c.boot != [] && c.room != [] && c.allocation != []
    && c.reservation != [] && c.nonce != [] && c.epoch >= 1 && c.seat >= 0 && now < c.exp <= now + 60
  }

  function VerifyAdmission(mac: Mac, key: Bytes, token: Bytes, now: int): Verdict {
    if |token| > 4096 then Refused
    else
      match Split(token)
      case None => Refused
      case Some(p) =>
        var signature := Decode(p.1);
        if signature.None? || signature.value != mac(key, p.0) then Refused
        else
          match Decode(p.0)
          case None => Refused
          case Some(raw) =>
            match ReadClaims(raw)
            case None => Refused
            case Some(c) => if Admissible(c, now) then Admitted(c) else Refused
  }

  lemma {:induction false} FirstDotAt(p: Bytes, q: Bytes)
    requires Lettered(p)
    ensures FirstDot(p + [46] + q) == |p|
  {
    var s := p + [46] + q;
    assert s[|p|] == 46;
    if p != [] {
      FirstDotAt(p[1..], q);
      assert s[1..] == p[1..] + [46] + q;
      assert s[0] == p[0];
    }
  }

  lemma SplitSigned(p: Bytes, q: Bytes)
    requires Lettered(p) && Lettered(q)
    ensures Split(p + [46] + q) == Some((p, q))
  {
    FirstDotAt(p, q);
    var s := p + [46] + q;
    assert s[|p|] == 46 && s[..|p|] == p && s[|p| + 1..] == q;
  }

  // ---- The size of a ticket -------------------------------------------------------------------

  /** What the caller guarantees: users and boot identifiers of at most 128 bytes, 32-digit
      identifiers, 64-bit numbers. */
  predicate Issuable(c: Claims) {
    && |c.user| <= 128 && |c.boot| <= 128
    && |c.worker| <= 32 && |c.room| <= 32 && |c.allocation| <= 32 && |c.reservation| <= 32 && |c.nonce| <= 32
    && Short(c.schema) && Short(c.seat) && Short(c.epoch) && Short(c.exp)
  }

  predicate Short(n: int) {
    n < Power10(19) && -n < Power10(19)
  }

  lemma NumberLength(n: int)
    requires Short(n)
    ensures |Number(n)| <= 20
  {
    DigitsLength(if n < 0 then -n else n, 19);
  }

  function TextLimit(f: Field): nat {
    match f case Text(t) => 6 * |t| + 2 case Num(_) => 20 case Flag(_) => 5
  }

  lemma ValueLength(f: Field)
    requires f.Num? ==> Short(f.number)
    ensures |WriteValue(f)| <= TextLimit(f)
  {
    match f
    case Text(t) => EscapeLength(t);
    case Num(n) => NumberLength(n);
    case Flag(_) =>
  }

  /** An upper bound on the members from the i-th on: labels of at most 14 letters, separators, values. */
  function Limit(fs: seq<Field>, i: nat): nat
    requires i <= |fs|
    decreases |fs| - i
  {
    if i == |fs| then 0 else 18 + TextLimit(fs[i]) + Limit(fs, i + 1)
  }

  lemma {:induction false} MembersLength(names: seq<Bytes>, fs: seq<Field>, i: nat)
    requires |names| == |fs| && i <= |fs| && (forall j | 0 <= j < |fs| && fs[j].Num? :: Short(fs[j].number))
    requires forall j | 0 <= j < |names| :: |names[j]| <= 14
    ensures |WriteMembers(names[i..], fs[i..])| <= Limit(fs, i)
    decreases |fs| - i
  {
    if i < |fs| {
      ValueLength(fs[i]);
      MembersLength(names, fs, i + 1);
      assert names[i..][1..] == names[i + 1..] && fs[i..][1..] == fs[i + 1..];
    }
  }

  lemma ClaimsLength(c: Claims)
    requires Issuable(c)
    ensures |WriteClaims(c)| <= 2812
  {
    var fs := Fields(c);
    MembersLength(Names, fs, 0);
    assert Names[0..] == Names && fs[0..] == fs;
    LimitOfClaims(c);
  }

  lemma LimitOfClaims(c: Claims)
    requires Issuable(c)
    ensures Limit(Fields(c), 0) <= 2811
  {
    var fs := Fields(c);
    assert Limit(fs, 12) == 0;
    assert Limit(fs, 11) == 23;
    assert Limit(fs, 10) <= 235;
    assert Limit(fs, 9) <= 273;
    assert Limit(fs, 8) <= 311;
    assert Limit(fs, 7) <= 349;
    assert Limit(fs, 6) <= 561;
    assert Limit(fs, 5) <= 773;
    assert Limit(fs, 4) <= 985;
    assert Limit(fs, 3) <= 1773;
    assert Limit(fs, 2) <= 1985;
    assert Limit(fs, 1) <= 2773;
  }

  /** Every ticket fits the limit of the verifier. */
  lemma TicketFits(mac: Mac, key: Bytes, c: Claims)
    requires Issuable(c) && |mac(key, Encode(WriteClaims(c)))| == 32
    ensures |Sign(mac, key, c)| <= 4096
  {
    ClaimsLength(c);
    EncodeLength(WriteClaims(c));
    EncodeLength(mac(key, Encode(WriteClaims(c))));
  }

  // ---- What a ticket means --------------------------------------------------------------------

  /** A ticket decodes to exactly the issued claims at every time within 60 seconds before its
      expiry, and is refused at every other time. */
  lemma TicketVerdict(mac: Mac, key: Bytes, c: Claims, now: int)
    requires Issuable(c) && |mac(key, Encode(WriteClaims(c)))| == 32
    ensures VerifyAdmission(mac, key, Sign(mac, key, c), now) == if Admissible(c, now) then Admitted(c) else Refused
  {
    var payload := Encode(WriteClaims(c));
    var tag := Encode(mac(key, payload));
    TicketFits(mac, key, c);
    EncodeIsLettered(WriteClaims(c));
    EncodeIsLettered(mac(key, payload));
    SplitSigned(payload, tag);
    Base64RoundTrip(WriteClaims(c));
    Base64RoundTrip(mac(key, payload));
    ClaimsRoundTrip(c);
  }

  // ---- What the verifier accepts --------------------------------------------------------------

  /** A token of two parts whose second part does not authenticate the first is refused. */
  lemma ForgedIsRefused(mac: Mac, key: Bytes, p: Bytes, tag: Bytes, now: int)
    requires Lettered(p) && tag != mac(key, p)
    ensures VerifyAdmission(mac, key, p + [46] + Encode(tag), now) == Refused
  {
    EncodeIsLettered(tag);
    SplitSigned(p, Encode(tag));
    Base64RoundTrip(tag);
  }

  /** A ticket signed under another key is refused whenever the two codes of its payload differ. */
  lemma OtherKeyIsRefused(mac: Mac, key: Bytes, other: Bytes, c: Claims, now: int)
    requires mac(key, Encode(WriteClaims(c))) != mac(other, Encode(WriteClaims(c)))
    ensures VerifyAdmission(mac, key, Sign(mac, other, c), now) == Refused
  {
    EncodeIsLettered(WriteClaims(c));
    ForgedIsRefused(mac, key, Encode(WriteClaims(c)), mac(other, Encode(WriteClaims(c))), now);
  }

  /** What it takes to be admitted with claims `k`: two parts, the second the code of the first,
      the first the claims, all named, of the first schema, with a seat and within their last minute. */
  ghost predicate Deserves(mac: Mac, key: Bytes, token: Bytes, k: Claims, now: int, p: Bytes, q: Bytes) {
    && |token| <= 4096 && token == p + [46] + q && 46 !in p && 46 !in q
    && Decode(q) == Some(mac(key, p)) && Decode(p).Some? && ReadClaims(Decode(p).value) == Some(k)
    && k.schema == 1 && |k.user| > 0 && |k.worker| > 0 && |k.boot| > 0 && |k.room| > 0 && |k.allocation| > 0
    && |k.reservation| > 0 && |k.nonce| > 0 && 1 <= k.epoch && 0 <= k.seat && now < k.exp && k.exp - 60 <= now
  }

  lemma SplitParts(token: Bytes, p: Bytes, q: Bytes)
    ensures Split(token) == Some((p, q)) <==> token == p + [46] + q && 46 !in p && 46 !in q
  {
    if Split(token) == Some((p, q)) {
      assert token == p + [46] + q;
    }
    if token == p + [46] + q && 46 !in p && 46 !in q {
      assert token[|p|] == 46;
      assert forall j | 0 <= j < |p| :: token[j] == p[j] && p[j] != 46;
      assert FirstDot(token) == |p|;
      assert token[..|p|] == p && token[|p| + 1..] == q;
    }
  }

  /** The verifier admits exactly the tokens that deserve it. */
  lemma AdmittedExactly(mac: Mac, key: Bytes, token: Bytes, k: Claims, now: int)
    ensures VerifyAdmission(mac, key, token, now) == Admitted(k) <==> exists p, q :: Deserves(mac, key, token, k, now, p, q)
  {
    if VerifyAdmission(mac, key, token, now) == Admitted(k) {
      var parts := Split(token).value;
      SplitParts(token, parts.0, parts.1);
      assert Deserves(mac, key, token, k, now, parts.0, parts.1);
    }
    if p, q :| Deserves(mac, key, token, k, now, p, q) {
      SplitParts(token, p, q);
    }
  }
}
