/** Pass programs: the plans a pass is bought from, and the purchase itself. */
module PassPrograms {
  import opened Wrappers
  import opened Tables
  import opened WrapperResults
  import opened Transactions
  import opened Passes
  import Notifications

  /** `getPassProgram`: the program stored under that id, if any. */
  function GetPassProgram(t: Tables, passProgramId: string): (g: Option<ProgramRow>)
    ensures g.Some? <==> passProgramId in t.programs
    ensures g.Some? ==> g.value == t.programs[passProgramId]
  {
    if passProgramId in t.programs then Some(t.programs[passProgramId]) else None
  }

  /** `getPassProgramOrThrow`: an unknown program is CANNOT_FIND_PASS_GROUP. */
  function GetPassProgramOrThrow(t: Tables, passProgramId: string): (r: Result<ProgramRow, Failure>)
    ensures r.Err? <==> passProgramId !in t.programs
    ensures r.Err? ==> r.error == Unlisted(CannotFindPassGroup)
    ensures r.Ok? ==> r.value == t.programs[passProgramId]
  {
    match GetPassProgram(t, passProgramId)
    case None => Err(Unlisted(CannotFindPassGroup))
    case Some(g) => Ok(g)
  }

  /** The `search` clause of `getPassPrograms`: the name, description or coupon group holds the text. */
  predicate Searched(g: ProgramRow, search: string) {
    || Notifications.Contains(g.name, search)
    || (g.description.Some? && Notifications.Contains(g.description.value, search))
    || (g.couponGroupId.Some? && Notifications.Contains(g.couponGroupId.value, search))
  }

  /** Whether `getPassPrograms` lists a program; `onlySale` defaults to true. */
  predicate ProgramListed(g: ProgramRow, search: Option<string>, onlySale: Option<bool>) {
    && (!Present(search) || Searched(g, search.value))
    && (!onlySale.GetOr(true) || g.isSale)
  }

  /** `getPassPrograms`: the listed program ids (paging and order are not modelled). */
  function GetPassPrograms(t: Tables, search: Option<string>, onlySale: Option<bool>): (ids: set<string>)
    ensures ids <= t.programs.Keys
    ensures forall k :: k in ids <==> k in t.programs && ProgramListed(t.programs[k], search, onlySale)
  {
    set k | k in t.programs && ProgramListed(t.programs[k], search, onlySale)
  }

  /** By default only programs on sale are listed, and every one of them is. */
  lemma DefaultListsExactlySale(t: Tables, k: string)
    requires k in t.programs
    ensures k in GetPassPrograms(t, None, None) <==> t.programs[k].isSale
  {
  }

  /** The passes bought from a program. */
  function PassesOf(t: Tables, passProgramId: string): (ids: set<string>)
    ensures forall k :: k in ids <==> k in t.passes && t.passes[k].passProgramId == passProgramId
  {
    set k | k in t.passes && t.passes[k].passProgramId == passProgramId
  }

  /** `deletePassProgram`: a program any pass refers to is PASS_PROGRAM_HAS_USING, with the count. */
  function DeletePassProgram(t: Tables, program: ProgramRow): (r: Result<Op, Failure>)
    ensures r.Err? <==> exists k :: k in t.passes && t.passes[k].passProgramId == program.passProgramId
    ensures r.Err? ==> r.error == Unlisted(PassProgramHasUsing(|PassesOf(t, program.passProgramId)|))
    ensures r.Ok? ==> r.value == DeleteProgram(program.passProgramId)
  {
    var using := PassesOf(t, program.passProgramId);
    if |using| > 0 then Err(Unlisted(PassProgramHasUsing(|using|)))
    else
      assert using == {};
      Ok(DeleteProgram(program.passProgramId))
  }

  /** Every pass refers to a program that exists. */
  predicate ReferencesIntact(t: Tables) {
    forall k :: k in t.passes ==> t.passes[k].passProgramId in t.programs
  }

  /** Deleting what `deletePassProgram` allows never leaves a pass without its program. */
  lemma DeleteKeepsReferences(t: Tables, program: ProgramRow)
    requires ReferencesIntact(t)
    requires DeletePassProgram(t, program).Ok?
    requires Apply(t, DeletePassProgram(t, program).value).Ok?
    ensures ReferencesIntact(Apply(t, DeletePassProgram(t, program).value).value.0)
  {
  }

  /**
   * The body of `createPassProgram` and `modifyPassProgram`. `Keep` is an
   * absent field; `Put(None)` is an explicit `null`, which the nullable
   * columns accept.
   */
  datatype ProgramProps = ProgramProps(
    name: Write<string>,
    description: Write<string>,
    isSale: Write<bool>,
    couponGroupId: Write<Option<string>>,
    validity: Write<Option<int>>,
    allowRenew: Write<bool>,
    price: Write<Option<int>>)

  /** The rules both schemas share: a name of 2 to 16 characters and a UUID coupon group. */
  predicate FieldsOk(p: ProgramProps, isUuid: string -> bool) {
    && (p.name.Put? ==> 2 <= |p.name.v| <= 16)
    && (p.couponGroupId.Put? && p.couponGroupId.v.Some? ==> isUuid(p.couponGroupId.v.value))
  }

  /** The creation schema also requires the name, `isSale` and `allowRenew`. */
  predicate CreateShape(p: ProgramProps, isUuid: string -> bool) {
    FieldsOk(p, isUuid) && p.name.Put? && p.isSale.Put? && p.allowRenew.Put?
  }

  /** The coupon group a request names, if it names a non-empty one. */
  function NamedGroup(p: ProgramProps): Option<string> {
    if p.couponGroupId.Put? && Present(p.couponGroupId.v) then p.couponGroupId.v else None
  }

  /**
   * `createPassProgram`: the coupon group is looked up at payments, and must
   * exist, only when one is given. `passProgramId` is the generated key.
   */
  function CreatePassProgram(p: ProgramProps, isUuid: string -> bool, group: Result<(), Failure>,
                             passProgramId: string): (o: Outcome<Op>)
    ensures !CreateShape(p, isUuid) ==> o == Outcome([], Err(JoiRejected))
    ensures CreateShape(p, isUuid) && NamedGroup(p).None? ==> o.calls == [] && o.result.Ok?
    ensures CreateShape(p, isUuid) && NamedGroup(p).Some? ==>
              o.calls == [CheckCouponGroup(NamedGroup(p).value)] && (o.result.Ok? <==> group.Ok?)
    ensures o.result.Ok? ==>
              o.result.value == CreateProgram(ProgramRow(
                passProgramId, p.name.v,
                if p.description.Put? then Some(p.description.v) else None,
                p.isSale.v, p.price.Over(None), p.validity.Over(None), p.allowRenew.v, p.couponGroupId.Over(None)))
  {
    if !CreateShape(p, isUuid) then Outcome([], Err(JoiRejected))
    else
      var calls := if NamedGroup(p).Some? then [CheckCouponGroup(NamedGroup(p).value)] else [];
      if calls != [] && group.Err? then Outcome(calls, Err(group.error))
      else Outcome(calls, Ok(CreateProgram(ProgramRow(
        passProgramId, p.name.v,
        if p.description.Put? then Some(p.description.v) else None,
        p.isSale.v, p.price.Over(None), p.validity.Over(None), p.allowRenew.v, p.couponGroupId.Over(None)))))
  }

  /** The update `modifyPassProgram` prepares: the supplied fields only. */
  function ProgramChanges(p: ProgramProps): ProgramPatch {
    ProgramPatch(p.name, if p.description.Put? then Put(Some(p.description.v)) else Keep,
                 p.isSale, p.couponGroupId, p.validity, p.allowRenew, p.price)
  }

  /**
   * `modifyPassProgram`: the coupon group is looked up again only when a
   * non-empty one is given and it differs from the current one.
   */
  function ModifyPassProgram(program: ProgramRow, p: ProgramProps, isUuid: string -> bool,
                             group: Result<(), Failure>): (o: Outcome<Op>)
    ensures !FieldsOk(p, isUuid) ==> o == Outcome([], Err(JoiRejected))
    ensures FieldsOk(p, isUuid) ==>
              (o.calls != [] <==> NamedGroup(p).Some? && NamedGroup(p) != program.couponGroupId)
    ensures o.calls != [] ==> o.calls == [CheckCouponGroup(NamedGroup(p).value)] && (o.result.Ok? <==> group.Ok?)
    ensures FieldsOk(p, isUuid) && o.calls == [] ==> o.result.Ok?
    ensures o.result.Ok? ==> o.result.value == UpdateProgram(program.passProgramId, ProgramChanges(p))
  {
    if !FieldsOk(p, isUuid) then Outcome([], Err(JoiRejected))
    else
      var calls := if NamedGroup(p).Some? && NamedGroup(p) != program.couponGroupId
                   then [CheckCouponGroup(NamedGroup(p).value)] else [];
      if calls != [] && group.Err? then Outcome(calls, Err(group.error))
      else Outcome(calls, Ok(UpdateProgram(program.passProgramId, ProgramChanges(p))))
  }

  /** Committing a modification leaves every absent field as it was. */
  lemma ModifyKeepsAbsentFields(t: Tables, program: ProgramRow, p: ProgramProps, isUuid: string -> bool,
                                group: Result<(), Failure>)
    requires ModifyPassProgram(program, p, isUuid, group).result.Ok?
    requires program.passProgramId in t.programs
    ensures var t1 := Apply(t, ModifyPassProgram(program, p, isUuid, group).result.value).value.0;
            var before := t.programs[program.passProgramId];
            var after := t1.programs[program.passProgramId];
            && (p.name.Keep? ==> after.name == before.name)
            && (p.description.Keep? ==> after.description == before.description)
            && (p.isSale.Keep? ==> after.isSale == before.isSale)
            && (p.couponGroupId.Keep? ==> after.couponGroupId == before.couponGroupId)
            && (p.validity.Keep? ==> after.validity == before.validity)
            && (p.allowRenew.Keep? ==> after.allowRenew == before.allowRenew)
            && (p.price.Keep? ==> after.price == before.price)
            && after.passProgramId == before.passProgramId
  {
  }

  /**
   * `purchasePassProgram`: `autoRenew` must be given; an off-sale program
   * is refused before an id is drawn or anything is charged; a positive
   * price is charged; then the pass is prepared under a fresh id.
   */
  method PurchasePassProgram(t: Tables, user: UserRow, program: ProgramRow, autoRenew: Option<bool>,
                             draws: seq<string>, answers: PaymentAnswers, blank: PassRow, now: int)
    returns (passId: Option<string>, o: Outcome<Op>)
    requires exists k :: 0 <= k < |draws| && draws[k] !in t.passes
    ensures autoRenew.None? ==> passId.None? && o == Outcome([], Err(JoiRejected))
    ensures autoRenew.Some? && !program.isSale ==> passId.None? && o == Outcome([], Err(Unlisted(PassProgramIsNotSale)))
    ensures autoRenew.Some? && program.isSale ==> passId.Some? && passId.value !in t.passes
    ensures Charged(o.calls) <==> autoRenew.Some? && program.isSale && program.price.Some? && program.price.value > 0
    ensures Charged(o.calls) ==> o.calls[0] == Charge(user.userId, program.price.value)
    ensures Charged(o.calls) && answers.charge.Err? ==> o == Outcome([o.calls[0]], Err(answers.charge.error))
    ensures o.result.Ok? ==>
              passId.Some? && o.result.value.CreatePass?
              && o.result.value.pass.passId == passId.value && o.result.value.pass.autoRenew == autoRenew.value
              && o.result == Passes.CreatePass(user, program, passId.value, autoRenew.value, answers, blank, now).result
  {
    if autoRenew.None? {
      return None, Outcome([], Err(JoiRejected));
    }
    if !program.isSale {
      return None, Outcome([], Err(Unlisted(PassProgramIsNotSale)));
    }
    var id := GeneratePassId(t, draws);
    passId := Some(id);
    var charge := if program.price.Some? && program.price.value > 0 then [Charge(user.userId, program.price.value)] else [];
    assert charge != [] ==> charge[0].Charge?;
    if charge != [] && answers.charge.Err? {
      return passId, Outcome(charge, Err(answers.charge.error));
    }
    var created := Passes.CreatePass(user, program, id, autoRenew.value, answers, blank, now);
    var calls := charge + created.calls;
    assert charge != [] ==> calls[0] == charge[0];
    assert forall i :: 0 <= i < |created.calls| ==> !created.calls[i].Charge?;
    assert Charged(calls) ==> charge != [] by {
      if charge == [] {
        assert calls == created.calls;
      }
    }
    o := Outcome(calls, created.result);
  }
}
