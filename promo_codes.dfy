/** Promo-code validation (src/hooks/usePromoCodes.ts, `validatePromoCode`). */
module PromoCodes {
  import opened Wrappers
  import Text

  /** An API promo code.  `startDate` and `endDate` are the times the date
      strings denote (None for a string `new Date` cannot read, which
      compares false with every time). */
  datatype PromoCode = PromoCode(
    id: int, name: string, discount: string,
    startDate: Option<int>, endDate: Option<int>, isFreeShip: string, active: string)

  datatype PromoResult =
    | Rejected(error: string)
    | Accepted(code: PromoCode, discount: Option<real>, isFreeShip: bool)

  const RejectionMessage: string := "Invalid or expired promo code"

  /** A code is usable now: the same name up to case, active, and within
      its dates, both ends included. */
  predicate Usable(pc: PromoCode, entered: string, now: int) {
    Text.Lower(pc.name) == Text.Lower(entered) && pc.active == "1"
    && pc.startDate.Some? && pc.startDate.value <= now
    && pc.endDate.Some? && pc.endDate.value >= now
  }

  /** `promoCodes.find(...)`: the position of the first usable code. */
  function FirstUsable(codes: seq<PromoCode>, entered: string, now: int): (k: Option<nat>)
    ensures k.Some? ==> k.value < |codes| && Usable(codes[k.value], entered, now)
    ensures k.Some? ==> forall j :: 0 <= j < k.value ==> !Usable(codes[j], entered, now)
    ensures k.None? <==> forall j :: 0 <= j < |codes| ==> !Usable(codes[j], entered, now)
  {
    if codes == [] then None
    else if Usable(codes[0], entered, now) then Some(0)
    else
      var rest := FirstUsable(codes[1..], entered, now);
      assert forall j :: 1 <= j < |codes| ==> codes[j] == codes[1..][j - 1];
      if rest.Some? then Some(rest.value + 1) else None
  }

  /** `validatePromoCode` with the clock read as `now` and `parseFloat`
      given as `parse` (None for NaN). */
  function ValidatePromoCode(entered: string, codes: seq<PromoCode>, now: int,
                             parse: string -> Option<real>): (r: PromoResult)
    ensures r.Rejected? <==> forall j :: 0 <= j < |codes| ==> !Usable(codes[j], entered, now)
    ensures r.Accepted? ==> r.code in codes && Usable(r.code, entered, now)
  {
    match FirstUsable(codes, entered, now)
    case None => Rejected(RejectionMessage)
    case Some(k) =>
      Accepted(codes[k], parse(codes[k].discount), codes[k].isFreeShip == "1")
  }

  /** A code is rejected, with the fixed message, exactly when no code is
      usable; otherwise the accepted code is the first usable one in list
      order, its discount is its parsed discount field and free shipping
      holds exactly when its flag is "1". */
  lemma ValidatePromoCodeSpec(entered: string, codes: seq<PromoCode>, now: int,
                              parse: string -> Option<real>)
    ensures var r := ValidatePromoCode(entered, codes, now, parse);
            && (r.Rejected? <==> forall j :: 0 <= j < |codes| ==> !Usable(codes[j], entered, now))
            && (r.Rejected? ==> r.error == RejectionMessage)
            && (r.Accepted? ==>
                  exists k :: 0 <= k < |codes| && codes[k] == r.code
                    && Usable(codes[k], entered, now)
                    && (forall j :: 0 <= j < k ==> !Usable(codes[j], entered, now)))
            && (r.Accepted? ==> r.discount == parse(r.code.discount))
            && (r.Accepted? ==> (r.isFreeShip <==> r.code.isFreeShip == "1"))
  {
  }

  /** Case does not matter: a code entered in other letters is judged
      alike. */
  lemma CaseInsensitive(entered: string, codes: seq<PromoCode>, now: int,
                        parse: string -> Option<real>)
    ensures ValidatePromoCode(entered, codes, now, parse)
            == ValidatePromoCode(Text.Lower(entered), codes, now, parse)
  {
    Text.LowerLaws(entered, []);
    assert forall pc :: Usable(pc, entered, now) == Usable(pc, Text.Lower(entered), now);
    FirstUsableAgrees(codes, entered, Text.Lower(entered), now);
  }

  lemma {:induction false} FirstUsableAgrees(codes: seq<PromoCode>, a: string, b: string, now: int)
    requires forall pc :: Usable(pc, a, now) == Usable(pc, b, now)
    ensures FirstUsable(codes, a, now) == FirstUsable(codes, b, now)
    decreases |codes|
  {
    if codes != [] {
      FirstUsableAgrees(codes[1..], a, b, now);
    }
  }
}
