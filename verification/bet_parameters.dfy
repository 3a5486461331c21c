/** The tool parameter schemas of the plugin, written as parse functions
    from a raw tool input to either the accepted parameters or the list of
    fields that failed their rule. A raw field is `None` when the caller left
    it out. A parse checks every field and reports every failing one, in the
    order the schema declares them. */
module BetParameters {
  import opened Wrappers
  import opened HexFormat

  /** The schema fields, in declaration order. */
  datatype Field = Face | Cap | BetAmount | BetCount | Token | StopGain | StopLoss | Receiver | Affiliate | Hash

  /** The position of a field in its schema's declaration order. */
  function FieldRank(f: Field): nat {
    match f
    case Face => 0
    case Cap => 1
    case BetAmount => 2
    case BetCount => 3
    case Token => 4
    case StopGain => 5
    case StopLoss => 6
    case Receiver => 7
    case Affiliate => 8
    case Hash => 9
  }

  /** Issues listed in strictly increasing declaration order (hence each field
      at most once). */
  predicate InSchemaOrder(issues: seq<Field>) {
    forall i, j :: 0 <= i < j < |issues| ==> FieldRank(issues[i]) < FieldRank(issues[j])
  }

  /** The coin faces of the SDK's enum. */
  datatype CoinFace = Heads | Tails

  /** A face as it arrives: one of the enum's values, or any other value. */
  datatype FaceInput = EnumFace(face: CoinFace) | NotAFace(value: string)

  /** Highest dice cap the schema accepts. */
  const MaxDiceCap: int := 99

  /** The shared betting fields as they arrive from the caller. */
  datatype RawCasinoBet = RawCasinoBet(
    betAmount: Option<int>,
    betCount: Option<int>,
    token: Option<string>,
    stopGain: Option<int>,
    stopLoss: Option<int>,
    receiver: Option<string>,
    affiliate: Option<string>)

  /** The shared betting fields once accepted. Optional fields that were left
      out stay absent: each schema default sits under an outer `optional`,
      which lets an absent value through before the default is consulted. */
  datatype CasinoBetParams = CasinoBetParams(
    betAmount: int,
    betCount: Option<int>,
    token: Option<string>,
    stopGain: Option<int>,
    stopLoss: Option<int>,
    receiver: Option<string>,
    affiliate: Option<string>)

  datatype RawCoinTossBet = RawCoinTossBet(face: Option<FaceInput>, bet: RawCasinoBet)
  datatype CoinTossBetParams = CoinTossBetParams(face: CoinFace, bet: CasinoBetParams)

  datatype RawDiceBet = RawDiceBet(cap: Option<int>, bet: RawCasinoBet)
  datatype DiceBetParams = DiceBetParams(cap: int, bet: CasinoBetParams)

  datatype RawGetBet = RawGetBet(hash: Option<string>)

  /** An optional amount or count: absent, or strictly positive. */
  predicate OptionalPositive(o: Option<int>) {
    o.None? || o.value > 0
  }

  /** An optional address: absent, or an accepted EVM address. */
  predicate OptionalAddress(o: Option<string>) {
    o.None? || IsHexAddress(o.value)
  }

  /** The rule of each shared betting field; other fields are not part of
      this group and always pass. */
  predicate CasinoFieldAccepted(raw: RawCasinoBet, f: Field) {
    match f
    case BetAmount => raw.betAmount.Some? && raw.betAmount.value > 0
    case BetCount => OptionalPositive(raw.betCount)
    case Token => OptionalAddress(raw.token)
    case StopGain => OptionalPositive(raw.stopGain)
    case StopLoss => OptionalPositive(raw.stopLoss)
    case Receiver => OptionalAddress(raw.receiver)
    case Affiliate => OptionalAddress(raw.affiliate)
    case _ => true
  }

  /** Every shared betting field passes its rule. */
  predicate CasinoBetAccepted(raw: RawCasinoBet) {
    && raw.betAmount.Some? && raw.betAmount.value > 0
    && OptionalPositive(raw.betCount)
    && OptionalAddress(raw.token)
    && OptionalPositive(raw.stopGain)
    && OptionalPositive(raw.stopLoss)
    && OptionalAddress(raw.receiver)
    && OptionalAddress(raw.affiliate)
  }

  /** The face rule: present and one of the enum's values. */
  predicate FaceAccepted(face: Option<FaceInput>) {
    face.Some? && face.value.EnumFace?
  }

  /** The dice cap rule: present and `0 < cap <= 99`. */
  predicate DiceCapAccepted(cap: Option<int>) {
    cap.Some? && 0 < cap.value <= MaxDiceCap
  }

  /** What every accepted set of shared betting fields satisfies: written
      back as input, it passes every shared rule. */
  predicate ValidCasinoBet(p: CasinoBetParams) {
    CasinoBetAccepted(ToRaw(p))
  }

  /** The raw input that carries exactly the accepted values. */
  function ToRaw(p: CasinoBetParams): RawCasinoBet {
    RawCasinoBet(Some(p.betAmount), p.betCount, p.token, p.stopGain, p.stopLoss, p.receiver, p.affiliate)
  }

  /** The shared betting fields, in declaration order. */
  const CasinoFields: seq<Field> := [BetAmount, BetCount, Token, StopGain, StopLoss, Receiver, Affiliate]

  /** The fields of `fields` that fail their rule, in the order given. */
  function FailingFields(raw: RawCasinoBet, fields: seq<Field>): (issues: seq<Field>)
    ensures forall f :: f in issues <==> f in fields && !CasinoFieldAccepted(raw, f)
    ensures InSchemaOrder(fields) ==> InSchemaOrder(issues)
    decreases |fields|
  {
    if fields == [] then []
    else
      var rest := FailingFields(raw, fields[1..]);
      if CasinoFieldAccepted(raw, fields[0]) then rest
      else
        HeadKeepsOrder(fields, rest);
        [fields[0]] + rest
  }

  /** Putting the head of an ordered list in front of an ordered selection
      of its tail keeps the order. */
  lemma HeadKeepsOrder(fields: seq<Field>, rest: seq<Field>)
    requires |fields| > 0
    requires forall f :: f in rest ==> f in fields[1..]
    ensures InSchemaOrder(fields) && InSchemaOrder(rest) ==> InSchemaOrder([fields[0]] + rest)
  {
    if InSchemaOrder(fields) && InSchemaOrder(rest) {
      forall f | f in rest
        ensures FieldRank(fields[0]) < FieldRank(f)
      {
        var k :| 0 <= k < |fields[1..]| && fields[1..][k] == f;
        assert fields[k + 1] == f;
      }
      LeadingIssueKeepsOrder(fields[0], rest);
    }
  }

  /** Only shared betting fields can fail the shared rules. */
  lemma FailingFieldIsCasinoField(raw: RawCasinoBet, f: Field)
    requires !CasinoFieldAccepted(raw, f)
    ensures f in CasinoFields
    ensures 2 <= FieldRank(f)
  {
  }

  lemma FailingFieldsAreCasinoFields(raw: RawCasinoBet)
    ensures forall f :: !CasinoFieldAccepted(raw, f) ==> f in CasinoFields
  {
    forall f | !CasinoFieldAccepted(raw, f)
      ensures f in CasinoFields
    {
      FailingFieldIsCasinoField(raw, f);
    }
  }

  lemma CasinoFieldsInSchemaOrder()
    ensures InSchemaOrder(CasinoFields)
  {
  }

  /** The shared fields are accepted together exactly when each one is. */
  lemma CasinoBetAcceptedFieldwise(raw: RawCasinoBet)
    ensures CasinoBetAccepted(raw) <==> forall f :: CasinoFieldAccepted(raw, f)
  {
    if !CasinoBetAccepted(raw) {
      if !CasinoFieldAccepted(raw, BetAmount) {
      } else if !CasinoFieldAccepted(raw, BetCount) {
      } else if !CasinoFieldAccepted(raw, Token) {
      } else if !CasinoFieldAccepted(raw, StopGain) {
      } else if !CasinoFieldAccepted(raw, StopLoss) {
      } else if !CasinoFieldAccepted(raw, Receiver) {
      } else {
        assert !CasinoFieldAccepted(raw, Affiliate);
      }
    }
  }

  /** The failing shared betting fields, in declaration order. */
  function CasinoBetIssues(raw: RawCasinoBet): (issues: seq<Field>)
    ensures forall f :: f in issues <==> !CasinoFieldAccepted(raw, f)
    ensures InSchemaOrder(issues)
    ensures issues == [] <==> CasinoBetAccepted(raw)
  {
    CasinoFieldsInSchemaOrder();
    FailingFieldsAreCasinoFields(raw);
    CasinoBetAcceptedFieldwise(raw);
    var issues := FailingFields(raw, CasinoFields);
    assert issues != [] ==> issues[0] in issues;
    issues
  }

  /** Parses the shared betting fields. */
  function ParseCasinoBet(raw: RawCasinoBet): (r: Result<CasinoBetParams, seq<Field>>)
    ensures r.Success? <==> CasinoBetAccepted(raw)
    ensures r.Success? ==> ValidCasinoBet(r.value) && ToRaw(r.value) == raw
    ensures r.Failure? ==> |r.error| > 0 && InSchemaOrder(r.error)
    ensures r.Failure? ==> forall f :: f in r.error <==> !CasinoFieldAccepted(raw, f)
  {
    var issues := CasinoBetIssues(raw);
    if issues == [] then
      Success(CasinoBetParams(raw.betAmount.value, raw.betCount, raw.token,
                              raw.stopGain, raw.stopLoss, raw.receiver, raw.affiliate))
    else
      Failure(issues)
  }

  /** Accepted shared fields parse back to themselves. */
  lemma ParseCasinoBetRoundTrip(p: CasinoBetParams)
    requires ValidCasinoBet(p)
    ensures ParseCasinoBet(ToRaw(p)) == Success(p)
  {
  }

  /** Shared issues are all declared after the face and the cap. */
  lemma CasinoIssuesFollowLeadFields(raw: RawCasinoBet)
    ensures forall f :: f in CasinoBetIssues(raw) ==> 2 <= FieldRank(f)
  {
    forall f | f in CasinoBetIssues(raw)
      ensures 2 <= FieldRank(f)
    {
      FailingFieldIsCasinoField(raw, f);
    }
  }

  /** A field declared before every listed issue may head the list without
      breaking declaration order. */
  lemma LeadingIssueKeepsOrder(lead: Field, issues: seq<Field>)
    requires InSchemaOrder(issues)
    requires forall f :: f in issues ==> FieldRank(lead) < FieldRank(f)
    ensures InSchemaOrder([lead] + issues)
  {
    var all := [lead] + issues;
    forall i, j | 0 <= i < j < |all|
      ensures FieldRank(all[i]) < FieldRank(all[j])
    {
      assert all[j] == issues[j - 1];
      if i == 0 {
        assert issues[j - 1] in issues;
      } else {
        assert all[i] == issues[i - 1];
      }
    }
  }

  /** Parses a schema made of one leading field (the face or the cap),
      whose rule gave `leadOk`, followed by the shared betting fields. */
  function ParseWithLead(leadOk: bool, lead: Field, raw: RawCasinoBet): (r: Result<CasinoBetParams, seq<Field>>)
    requires FieldRank(lead) < 2
    ensures r.Success? <==> leadOk && CasinoBetAccepted(raw)
    ensures r.Success? ==> ValidCasinoBet(r.value) && ToRaw(r.value) == raw
    ensures r.Failure? ==> |r.error| > 0 && InSchemaOrder(r.error)
    ensures r.Failure? ==> (lead in r.error <==> !leadOk)
    ensures r.Failure? ==> forall f :: f != lead ==> (f in r.error <==> !CasinoFieldAccepted(raw, f))
  {
    CasinoIssuesFollowLeadFields(raw);
    match ParseCasinoBet(raw)
    case Success(bet) =>
      if leadOk then Success(bet) else Failure([lead])
    case Failure(issues) =>
      assert lead !in issues;
      if leadOk then Failure(issues)
      else
        LeadingIssueKeepsOrder(lead, issues);
        Failure([lead] + issues)
  }

  /** Parses the coin-toss schema: the face, then the shared fields. */
  function ParseCoinTossBet(raw: RawCoinTossBet): (r: Result<CoinTossBetParams, seq<Field>>)
    ensures r.Success? <==> FaceAccepted(raw.face) && CasinoBetAccepted(raw.bet)
    ensures r.Success? ==> raw.face == Some(EnumFace(r.value.face))
    ensures r.Success? ==> ValidCasinoBet(r.value.bet) && ToRaw(r.value.bet) == raw.bet
    ensures r.Failure? ==> |r.error| > 0 && InSchemaOrder(r.error)
    ensures r.Failure? ==> (Face in r.error <==> !FaceAccepted(raw.face))
    ensures r.Failure? ==> forall f :: f != Face ==> (f in r.error <==> !CasinoFieldAccepted(raw.bet, f))
  {
    match ParseWithLead(FaceAccepted(raw.face), Face, raw.bet)
    case Success(bet) => Success(CoinTossBetParams(raw.face.value.face, bet))
    case Failure(issues) => Failure(issues)
  }

  /** Parses the dice schema: the cap, then the shared fields. The cap is
      modelled as an integer; the schema itself also admits fractions. */
  function ParseDiceBet(raw: RawDiceBet): (r: Result<DiceBetParams, seq<Field>>)
    ensures r.Success? <==> DiceCapAccepted(raw.cap) && CasinoBetAccepted(raw.bet)
    ensures r.Success? ==> 0 < r.value.cap <= MaxDiceCap && Some(r.value.cap) == raw.cap
    ensures r.Success? ==> ValidCasinoBet(r.value.bet) && ToRaw(r.value.bet) == raw.bet
    ensures r.Failure? ==> |r.error| > 0 && InSchemaOrder(r.error)
    ensures r.Failure? ==> (Cap in r.error <==> !DiceCapAccepted(raw.cap))
    ensures r.Failure? ==> forall f :: f != Cap ==> (f in r.error <==> !CasinoFieldAccepted(raw.bet, f))
  {
    match ParseWithLead(DiceCapAccepted(raw.cap), Cap, raw.bet)
    case Success(bet) => Success(DiceBetParams(raw.cap.value, bet))
    case Failure(issues) => Failure(issues)
  }

  /** Parses the get-bet schema: a transaction hash. */
  function ParseGetBet(raw: RawGetBet): (r: Result<string, seq<Field>>)
    ensures r.Success? <==> raw.hash.Some? && IsTxHash(raw.hash.value)
    ensures r.Success? ==> Some(r.value) == raw.hash && |r.value| == 66
    ensures r.Failure? ==> r.error == [Hash]
  {
    match raw.hash
    case Some(h) =>
      if IsTxHash(h) then Success(h) else Failure([Hash])
    case None => Failure([Hash])
  }
}
