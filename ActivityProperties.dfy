/**
 * What the activity write pipeline guarantees, proved about the functions
 * of ActivitySpec: required fields first, lookups in a fixed order with the
 * first failure deciding the error, optional fields kept when absent,
 * exactly one owner on success, and creator/created stamped on create only.
 */
module ActivityProperties {
  import opened Wrappers
  import opened Php
  import opened Repositories
  import opened ActivityEntity
  import opened ActivitySpec

  /** A missing subject, dueDate or assignedContact fails before any field is written. */
  lemma MissingRequiredLeavesActivityUntouched(s: ActivityState, request: Request, store: Store,
                                               now: int, user: User)
    requires Registered(store)
    requires MissingRequired(request)
    ensures ActivityData(s, request, store, now, user) == Step(s, Rest(MissingRequiredMessage))
  {
  }

  /** On success subject and dueDate hold the request values and changed/changer the clock and the user. */
  lemma SuccessStampsRequiredData(s: ActivityState, request: Request, store: Store, now: int, user: User)
    requires Registered(store)
    requires ActivityData(s, request, store, now, user).outcome.Ok?
    ensures var t := ActivityData(s, request, store, now, user).state;
            && t.subject == Some(Get(request, Subject))
            && t.dueDate == Some(Parsed(Get(request, DueDate)))
            && t.changed == Some(At(now))
            && t.changer == Some(user)
  {
    var required := RequiredData(s, request, store.contacts, now, user);
    var details := Details(required.state, request, store);
    assert ActivityData(s, request, store, now, user) == Owner(details.state, request, store);
  }

  /**
   * assignedContact: a null id leaves it as it was, an unknown id fails with
   * the contact entity's name and that id, a known id sets it.
   */
  lemma AssignedContactResolution(s: ActivityState, request: Request, store: Store, now: int, user: User)
    requires Registered(store)
    requires !MissingRequired(request)
    ensures var r := ActivityData(s, request, store, now, user);
            var id := AssignedContactId(request);
            && (IsNull(id) ==> r.state.assignedContact == s.assignedContact)
            && (!IsNull(id) && Find(store.contacts.rows, id).None? ==>
                  r == Step(s.(subject := Some(Get(request, Subject)),
                               dueDate := Some(Parsed(Get(request, DueDate)))),
                            NotFound(store.contacts.className, id)))
            && (!IsNull(id) && r.outcome.Ok? ==>
                  r.state.assignedContact == Some(store.contacts.rows[IdKey(id).value]))
  {
  }

  /**
   * After successful processing exactly one of account and contact is set:
   * the account when one is given (the contact is cleared), otherwise the
   * contact (the account is cleared).  With neither, processing fails with
   * "No account or contact set!" unless an earlier step already failed.
   */
  lemma OwnerExclusive(s: ActivityState, request: Request, store: Store, now: int, user: User)
    requires Registered(store)
    ensures var r := ActivityData(s, request, store, now, user);
            var account := Get(request, Account);
            var contact := Get(request, Contact);
            && (r.outcome.Ok? ==> (r.state.account.Some? <==> r.state.contact.None?))
            && (r.outcome.Ok? && !IsNull(account) ==>
                  && r.state.account == Find(store.em[store.accountEntityName], Index(account, "id"))
                  && r.state.contact == None)
            && (r.outcome.Ok? && IsNull(account) ==>
                  && r.state.contact == Find(store.contacts.rows, Index(contact, "id"))
                  && r.state.account == None)
            && (IsNull(account) && IsNull(contact) ==> !r.outcome.Ok?)
            && (r.outcome == Rest(NoOwnerMessage) <==>
                  RequiredData(s, request, store.contacts, now, user).outcome.Ok? &&
                  ReferencesResolve(request, store) && IsNull(account) && IsNull(contact))
  {
    var required := RequiredData(s, request, store.contacts, now, user);
    if required.outcome.Ok? {
      DetailPrecedence(required.state, request, store);
      FirstFailureOkIffAllPass(DetailChecks(request, store));
    }
  }

  /** status, priority and type are each absent or name a row. */
  predicate ReferencesResolve(request: Request, store: Store)
    requires Registered(store)
  {
    var vs := DetailChecks(request, store);
    forall i :: 0 <= i < |vs| ==> vs[i].passes
  }

  /**
   * note, activityStatus, activityPriority, activityType and startDate are
   * overwritten when their parameter is present and keep their value when
   * it is absent.
   */
  lemma OptionalFieldsOnlyWhenPresent(s: ActivityState, request: Request, store: Store, now: int, user: User)
    requires Registered(store)
    requires ActivityData(s, request, store, now, user).outcome.Ok?
    ensures var t := ActivityData(s, request, store, now, user).state;
            var note := Get(request, Note);
            var status := Get(request, ActivityStatus);
            var priority := Get(request, ActivityPriority);
            var activityType := Get(request, ActivityType);
            var startDate := Get(request, StartDate);
            && t.note == (if IsNull(note) then s.note else Some(note))
            && t.activityStatus == (if IsNull(status) then s.activityStatus
                                    else Find(store.em[ActivityStatusEntityName], Index(status, "id")))
            && t.activityPriority == (if IsNull(priority) then s.activityPriority
                                      else Find(store.em[ActivityPriorityEntityName], Index(priority, "id")))
            && t.activityType == (if IsNull(activityType) then s.activityType
                                  else Find(store.em[ActivityTypeEntityName], Index(activityType, "id")))
            && t.startDate == (if IsNull(startDate) then s.startDate else Some(Parsed(startDate)))
  {
    var required := RequiredData(s, request, store.contacts, now, user);
    var details := Details(required.state, request, store);
    assert ActivityData(s, request, store, now, user) == Owner(details.state, request, store);
  }

  /** Processing never writes creator or created, whatever its outcome. */
  lemma ProcessingKeepsCreation(s: ActivityState, request: Request, store: Store, now: int, user: User)
    requires Registered(store)
    ensures var t := ActivityData(s, request, store, now, user).state;
            t.created == s.created && t.creator == s.creator
  {
  }

  /** Creating stamps creator and created only when processing succeeded. */
  lemma CreateStampsCreator(request: Request, store: Store, now: int, user: User)
    requires Registered(store)
    ensures var r := Create(request, store, now, user);
            && r.outcome == ActivityData(Blank, request, store, now, user).outcome
            && (r.outcome.Ok? ==> r.state.creator == Some(user) && r.state.created == Some(At(now)))
            && (!r.outcome.Ok? ==> r.state.creator == None && r.state.created == None)
  {
  }

  /**
   * A created Activity has exactly one owner: with an account given, the
   * account and no contact; otherwise the contact and no account.
   */
  lemma CreateOwner(request: Request, store: Store, now: int, user: User)
    requires Registered(store)
    requires Create(request, store, now, user).outcome.Ok?
    ensures var t := Create(request, store, now, user).state;
            var account := Get(request, Account);
            && (t.account.Some? <==> t.contact.None?)
            && (!IsNull(account) ==> t.contact == None && t.account.Some?)
            && (IsNull(account) ==> t.account == None && t.contact.Some?)
  {
    OwnerExclusive(Blank, request, store, now, user);
  }

  /** Processing the same request again, at the same instant and by the same user, changes nothing. */
  lemma ProcessingIsIdempotent(s: ActivityState, request: Request, store: Store, now: int, user: User)
    requires Registered(store)
    requires ActivityData(s, request, store, now, user).outcome.Ok?
    ensures var t := ActivityData(s, request, store, now, user).state;
            ActivityData(t, request, store, now, user) == Step(t, Ok)
  {
    var t := ActivityData(s, request, store, now, user).state;
    ErrorPrecedence(s, request, store, now, user);
    ErrorPrecedence(t, request, store, now, user);
    var u := ActivityData(t, request, store, now, user).state;
    SuccessStampsRequiredData(s, request, store, now, user);
    SuccessStampsRequiredData(t, request, store, now, user);
    AssignedContactResolution(s, request, store, now, user);
    AssignedContactResolution(t, request, store, now, user);
    OptionalFieldsOnlyWhenPresent(s, request, store, now, user);
    OptionalFieldsOnlyWhenPresent(t, request, store, now, user);
    OwnerExclusive(s, request, store, now, user);
    OwnerExclusive(t, request, store, now, user);
    ProcessingKeepsCreation(t, request, store, now, user);
    assert u == t;
  }

  /** A create whose assignedContact has a null (or no) id stores no assigned contact, whatever the outcome. */
  lemma CreateWithNullAssignedContactId(request: Request, store: Store, now: int, user: User)
    requires Registered(store)
    requires IsNull(AssignedContactId(request))
    ensures Create(request, store, now, user).state.assignedContact == None
  {
    if !MissingRequired(request) {
      AssignedContactResolution(Blank, request, store, now, user);
    }
  }

  /**
   * assignedContact is not enforced on create: an `assignedContact` object
   * whose `id` is null passes the required-field check, so such a create
   * can succeed, and the new Activity is stored without an assigned contact.
   */
  lemma CreateWithoutAssignedContact(store: Store, now: int, user: User)
    requires Registered(store)
    requires 1 in store.contacts.rows
    ensures var request := map[Subject := Str("Call back"), DueDate := Str("2015-03-01"),
                               AssignedContact := Arr(map["id" := Null]),
                               Contact := Arr(map["id" := Int(1)])];
            var r := Create(request, store, now, user);
            r.outcome.Ok? && r.state.assignedContact == None && r.state.contact == Some(store.contacts.rows[1])
  {
    var request := map[Subject := Str("Call back"), DueDate := Str("2015-03-01"),
                       AssignedContact := Arr(map["id" := Null]),
                       Contact := Arr(map["id" := Int(1)])];
    assert Get(request, AssignedContact) == Arr(map["id" := Null]);
    assert Get(request, Contact) == Arr(map["id" := Int(1)]);
    assert Get(request, Account) == Null;
    CreateWithNullAssignedContactId(request, store, now, user);
    SucceedsIffAllChecksPass(Blank, request, store, now, user);
    OwnerExclusive(Blank, request, store, now, user);
  }

  // ---------------------------------------------------------------------
  // Error precedence, stated independently of the pipeline: the ordered
  // list of checks processActivityData makes, and the first one that fails.

  /** One check of the pipeline: whether it passes, and the exception it raises otherwise. */
  datatype Validation = Validation(passes: bool, failure: Outcome)

  /** The check that an id names a row, failing with not-found for that entity and id. */
  function RowCheck(rows: map<int, Entity>, entityName: string, id: Value): Validation {
    Validation(IdKey(id).Some? && IdKey(id).value in rows, NotFound(entityName, id))
  }

  /** The check on an optional reference parameter: absent, or its `id` names a row. */
  function ReferenceCheck(rows: map<int, Entity>, entityName: string, param: Value): Validation {
    var row := RowCheck(rows, entityName, Index(param, "id"));
    row.(passes := IsNull(param) || row.passes)
  }

  /** The checks of processRequiredData: required fields present, then a non-null assignedContact id names a contact. */
  function RequiredChecks(request: Request, store: Store): seq<Validation> {
    var assignedRow := RowCheck(store.contacts.rows, store.contacts.className, AssignedContactId(request));
    [ Validation(!MissingRequired(request), Rest(MissingRequiredMessage)),
      assignedRow.(passes := IsNull(AssignedContactId(request)) || assignedRow.passes) ]
  }

  /** The checks on status, priority and type. */
  function DetailChecks(request: Request, store: Store): seq<Validation>
    requires Registered(store)
  {
    [ ReferenceCheck(store.em[ActivityStatusEntityName], ActivityStatusEntityName, Get(request, ActivityStatus)),
      ReferenceCheck(store.em[ActivityPriorityEntityName], ActivityPriorityEntityName, Get(request, ActivityPriority)),
      ReferenceCheck(store.em[ActivityTypeEntityName], ActivityTypeEntityName, Get(request, ActivityType)) ]
  }

  /** The owner checks: a given account exists; otherwise a contact is given and exists. */
  function OwnerChecks(request: Request, store: Store): seq<Validation>
    requires Registered(store)
  {
    var account := Get(request, Account);
    var contact := Get(request, Contact);
    var contactRow := RowCheck(store.contacts.rows, store.contacts.className, Index(contact, "id"));
    [ ReferenceCheck(store.em[store.accountEntityName], store.accountEntityName, account),
      Validation(!IsNull(account) || !IsNull(contact), Rest(NoOwnerMessage)),
      contactRow.(passes := !IsNull(account) || IsNull(contact) || contactRow.passes) ]
  }

  /** All checks, in the order processActivityData makes them. */
  function Validations(request: Request, store: Store): (vs: seq<Validation>)
    requires Registered(store)
    ensures |vs| == 8
    ensures forall i :: 0 <= i < |vs| ==> !vs[i].failure.Ok?
  {
    RequiredChecks(request, store) + DetailChecks(request, store) + OwnerChecks(request, store)
  }

  /** The failure of the first check that does not pass; Ok when all pass. */
  function FirstFailure(vs: seq<Validation>): Outcome {
    if vs == [] then Ok
    else if !vs[0].passes then vs[0].failure
    else FirstFailure(vs[1..])
  }

  /** The first failure of two lists run one after the other. */
  lemma {:induction false} FirstFailureAppend(a: seq<Validation>, b: seq<Validation>)
    requires forall i :: 0 <= i < |a| ==> !a[i].failure.Ok?
    ensures FirstFailure(a + b) == if FirstFailure(a).Ok? then FirstFailure(b) else FirstFailure(a)
  {
    if a != [] {
      assert (a + b)[1..] == a[1..] + b;
      FirstFailureAppend(a[1..], b);
    } else {
      assert a + b == b;
    }
  }

  /** With checks that never fail with Ok, the first failure is Ok exactly when every check passes. */
  lemma {:induction false} FirstFailureOkIffAllPass(vs: seq<Validation>)
    requires forall i :: 0 <= i < |vs| ==> !vs[i].failure.Ok?
    ensures FirstFailure(vs).Ok? <==> forall i :: 0 <= i < |vs| ==> vs[i].passes
    ensures !FirstFailure(vs).Ok? ==> exists i :: 0 <= i < |vs| && !vs[i].passes && FirstFailure(vs) == vs[i].failure
  {
    if vs != [] {
      FirstFailureOkIffAllPass(vs[1..]);
      if vs[0].passes && !FirstFailure(vs).Ok? {
        var i :| 0 <= i < |vs[1..]| && !vs[1..][i].passes && FirstFailure(vs[1..]) == vs[1..][i].failure;
        assert !vs[i + 1].passes && FirstFailure(vs) == vs[i + 1].failure;
      }
    }
  }

  /** FirstFailure of a list of three checks, spelled out. */
  lemma FirstFailureOfThree(a: Validation, b: Validation, c: Validation)
    ensures FirstFailure([a, b, c]) ==
            if !a.passes then a.failure else if !b.passes then b.failure else if !c.passes then c.failure else Ok
  {
    assert [a, b, c][1..] == [b, c];
    assert [b, c][1..] == [c];
    assert [c][1..] == [];
    assert FirstFailure([c]) == if !c.passes then c.failure else Ok;
    assert FirstFailure([b, c]) == if !b.passes then b.failure else FirstFailure([c]);
  }

  /** processRequiredData ends with the first failing required check. */
  lemma RequiredPrecedence(s: ActivityState, request: Request, store: Store, now: int, user: User)
    ensures RequiredData(s, request, store.contacts, now, user).outcome == FirstFailure(RequiredChecks(request, store))
  {
    var vs := RequiredChecks(request, store);
    assert vs[1..] == [vs[1]] && vs[1..][1..] == [];
    assert FirstFailure(vs[1..]) == if !vs[1].passes then vs[1].failure else Ok;
  }

  /** The optional setters end with the first failing reference check, whatever the state. */
  lemma DetailPrecedence(s: ActivityState, request: Request, store: Store)
    requires Registered(store)
    ensures Details(s, request, store).outcome == FirstFailure(DetailChecks(request, store))
  {
    var vs := DetailChecks(request, store);
    FirstFailureOfThree(vs[0], vs[1], vs[2]);
  }

  /** The owner step ends with the first failing owner check, whatever the state. */
  lemma OwnerPrecedence(s: ActivityState, request: Request, store: Store)
    requires Registered(store)
    ensures Owner(s, request, store).outcome == FirstFailure(OwnerChecks(request, store))
  {
    var vs := OwnerChecks(request, store);
    FirstFailureOfThree(vs[0], vs[1], vs[2]);
  }

  /**
   * The outcome of processActivityData is the failure of the first check
   * that does not pass: required fields, assignedContact, status, priority,
   * type, account, owner present, contact.  It does not depend on the
   * Activity's prior state, the clock or the user.
   */
  lemma ErrorPrecedence(s: ActivityState, request: Request, store: Store, now: int, user: User)
    requires Registered(store)
    ensures ActivityData(s, request, store, now, user).outcome == FirstFailure(Validations(request, store))
  {
    var required := RequiredData(s, request, store.contacts, now, user);
    var details := Details(required.state, request, store);
    RequiredPrecedence(s, request, store, now, user);
    DetailPrecedence(required.state, request, store);
    OwnerPrecedence(details.state, request, store);
    var r, d, o := RequiredChecks(request, store), DetailChecks(request, store), OwnerChecks(request, store);
    assert Validations(request, store) == r + (d + o);
    FirstFailureAppend(r, d + o);
    FirstFailureAppend(d, o);
  }

  /** Processing succeeds exactly when every check passes. */
  lemma SucceedsIffAllChecksPass(s: ActivityState, request: Request, store: Store, now: int, user: User)
    requires Registered(store)
    ensures var vs := Validations(request, store);
            ActivityData(s, request, store, now, user).outcome.Ok? <==>
              forall i :: 0 <= i < |vs| ==> vs[i].passes
  {
    ErrorPrecedence(s, request, store, now, user);
    FirstFailureOkIffAllPass(Validations(request, store));
  }
}
