/**
 * ActivityController's write and list actions.  processRequiredData and
 * processActivityData change the Activity setter by setter and stop at the
 * first exception; postAction and putAction persist and flush only when
 * processing finished normally and turn an exception into a 404 or 400
 * response; cgetAction builds the list filter.
 */
module ActivityController {
  import opened Wrappers
  import opened Php
  import opened Repositories
  import opened ActivityEntity
  import opened ActivitySpec

  /** A call made on Doctrine's entity manager. */
  datatype EmCall = Persist(activity: Activity) | Flush

  /** Doctrine's entity manager, reduced to the calls the controller makes on it. */
  class EntityManagerLog {
    var calls: seq<EmCall>

    constructor ()
      ensures calls == []
    {
      calls := [];
    }

    method Persist(activity: Activity)
      modifies this
      ensures calls == old(calls) + [EmCall.Persist(activity)]
    {
      calls := calls + [EmCall.Persist(activity)];
    }

    method Flush()
      modifies this
      ensures calls == old(calls) + [EmCall.Flush]
    {
      calls := calls + [EmCall.Flush];
    }
  }

  /** The body of a response: the activity's representation, or the exception's. */
  datatype Body = ActivityBody(state: ActivityState) | ErrorBody(error: Outcome)

  datatype Response = Response(status: int, body: Body)

  /** `processRequiredData`. */
  method ProcessRequiredData(activity: Activity, request: Request, contacts: ContactRepository,
                             now: int, user: User)
    returns (outcome: Outcome)
    modifies activity
    ensures Step(activity.State(), outcome) ==
            RequiredData(old(activity.State()), request, contacts, now, user)
  {
    var subject := Get(request, Subject);
    var dueDate := Get(request, DueDate);
    var assignedContactData := Get(request, AssignedContact);
    if LooselyNull(subject) || LooselyNull(dueDate) || LooselyNull(assignedContactData) {
      return Rest(MissingRequiredMessage);
    }

    activity.subject := Some(subject);
    activity.dueDate := Some(Parsed(dueDate));

    var id := Index(assignedContactData, "id");
    if !IsNull(id) {
      var assignedContact := RetrieveContactById(contacts, id);
      if assignedContact.Missing? {
        return NotFound(assignedContact.entityName, assignedContact.id);
      }
      activity.assignedContact := Some(assignedContact.entity);
    }

    activity.changed := Some(At(now));
    activity.changer := Some(user);
    outcome := Ok;
  }

  /** `processActivityData`: the required data, then the optional fields, then the owner. */
  method ProcessActivityData(activity: Activity, request: Request, store: Store, now: int, user: User)
    returns (outcome: Outcome)
    requires Registered(store)
    modifies activity
    ensures Step(activity.State(), outcome) ==
            ActivityData(old(activity.State()), request, store, now, user)
  {
    outcome := ProcessRequiredData(activity, request, store.contacts, now, user);
    if !outcome.Ok? {
      return;
    }
    outcome := ProcessDetails(activity, request, store);
    if !outcome.Ok? {
      return;
    }
    outcome := ProcessOwner(activity, request, store);
  }

  /** The optional setters of `processActivityData`: note, status, priority, type, startDate. */
  method ProcessDetails(activity: Activity, request: Request, store: Store) returns (outcome: Outcome)
    requires Registered(store)
    modifies activity
    ensures Step(activity.State(), outcome) == Details(old(activity.State()), request, store)
  {
    var note := Get(request, Note);
    if !IsNull(note) {
      activity.note := Some(note);
    }
    outcome := ProcessReference(activity, StatusReference, request, store);
    if !outcome.Ok? {
      return;
    }
    outcome := ProcessReference(activity, PriorityReference, request, store);
    if !outcome.Ok? {
      return;
    }
    outcome := ProcessReference(activity, TypeReference, request, store);
    if !outcome.Ok? {
      return;
    }
    var startDate := Get(request, StartDate);
    if !IsNull(startDate) {
      activity.startDate := Some(Parsed(startDate));
    }
  }

  /** One optional reference: looked up and set when its parameter is not null. */
  method ProcessReference(activity: Activity, ref: Reference, request: Request, store: Store)
    returns (outcome: Outcome)
    requires Registered(store)
    modifies activity
    ensures Step(activity.State(), outcome) == ResolveReference(old(activity.State()), ref, request, store)
  {
    var param := Get(request, ref.Parameter());
    if !IsNull(param) {
      var found := GetEntityById(store.em, ref.EntityName(), Index(param, "id"));
      if found.Missing? {
        return NotFound(found.entityName, found.id);
      }
      match ref
      case StatusReference => activity.activityStatus := Some(found.entity);
      case PriorityReference => activity.activityPriority := Some(found.entity);
      case TypeReference => activity.activityType := Some(found.entity);
    }
    outcome := Ok;
  }

  /** The owner part of `processActivityData`: account XOR contact. */
  method ProcessOwner(activity: Activity, request: Request, store: Store) returns (outcome: Outcome)
    requires Registered(store)
    modifies activity
    ensures Step(activity.State(), outcome) == Owner(old(activity.State()), request, store)
  {
    var belongsToAccount := Get(request, Account);
    var belongsToContact := Get(request, Contact);
    if !IsNull(belongsToAccount) {
      var account := GetEntityById(store.em, store.accountEntityName, Index(belongsToAccount, "id"));
      if account.Missing? {
        return NotFound(account.entityName, account.id);
      }
      activity.account := Some(account.entity);
      activity.contact := None;
    } else {
      if IsNull(belongsToContact) {
        return Rest(NoOwnerMessage);
      }
      var contact := RetrieveContactById(store.contacts, Index(belongsToContact, "id"));
      if contact.Missing? {
        return NotFound(contact.entityName, contact.id);
      }
      activity.contact := Some(contact.entity);
      activity.account := None;
    }
    outcome := Ok;
  }

  /**
   * `postAction`: a new Activity is processed, stamped with its creator and
   * creation time, persisted and flushed; an exception skips persist and
   * flush and becomes a 404 or 400 response.
   */
  method PostAction(request: Request, store: Store, em: EntityManagerLog, now: int, user: User)
    returns (activity: Activity, response: Response)
    requires Registered(store)
    modifies em
    ensures fresh(activity)
    ensures var r := Create(request, store, now, user);
            && activity.State() == r.state
            && (r.outcome.Ok? ==>
                  && em.calls == old(em.calls) + [EmCall.Persist(activity), EmCall.Flush]
                  && response == Response(200, ActivityBody(r.state)))
            && (!r.outcome.Ok? ==>
                  && em.calls == old(em.calls)
                  && response == Response(StatusCode(r.outcome), ErrorBody(r.outcome)))
  {
    activity := new Activity();
    var outcome := ProcessActivityData(activity, request, store, now, user);
    if !outcome.Ok? {
      return activity, Response(StatusCode(outcome), ErrorBody(outcome));
    }

    activity.creator := Some(user);
    activity.created := Some(At(now));

    em.Persist(activity);
    em.Flush();
    response := Response(200, ActivityBody(activity.State()));
  }

  /** The activity `getEntityById(self::$entityName, $id)` fetches, as a set (empty when there is none). */
  function Fetched(activities: map<int, Activity>, id: Value): set<Activity> {
    match Find(activities, id)
    case Some(a) => {a}
    case None => {}
  }

  /**
   * `putAction`: the stored Activity with that id is processed in place,
   * then persisted and flushed; creator and created are left alone.  An
   * unknown id is a 404; an exception during processing skips persist and
   * flush (the in-memory entity keeps the fields already set).
   */
  method PutAction(id: Value, request: Request, activities: map<int, Activity>, store: Store,
                   em: EntityManagerLog, now: int, user: User)
    returns (response: Response)
    requires Registered(store)
    modifies em, Fetched(activities, id)
    ensures Find(activities, id).None? ==>
              && em.calls == old(em.calls)
              && response == Response(404, ErrorBody(NotFound(ActivityEntityName, id)))
    ensures Find(activities, id).Some? ==>
              var activity := Find(activities, id).value;
              var r := ActivityData(old(activity.State()), request, store, now, user);
              && activity.State() == r.state
              && (r.outcome.Ok? ==>
                    && em.calls == old(em.calls) + [EmCall.Persist(activity), EmCall.Flush]
                    && response == Response(200, ActivityBody(r.state)))
              && (!r.outcome.Ok? ==>
                    && em.calls == old(em.calls)
                    && response == Response(StatusCode(r.outcome), ErrorBody(r.outcome)))
  {
    var found := GetEntityById(map[ActivityEntityName := activities], ActivityEntityName, id);
    if found.Missing? {
      var error := NotFound(found.entityName, found.id);
      return Response(StatusCode(error), ErrorBody(error));
    }
    var activity := found.entity;

    var outcome := ProcessActivityData(activity, request, store, now, user);
    if !outcome.Ok? {
      return Response(StatusCode(outcome), ErrorBody(outcome));
    }

    em.Persist(activity);
    em.Flush();
    response := Response(200, ActivityBody(activity.State()));
  }

  // ---------------------------------------------------------------------
  // cgetAction

  /** The list parameters that filter, in the order cgetAction adds them. */
  const FilterKeys := [Type, Account, Contact]

  /** A join descriptor of the list: the id of the activity's account or of its contact. */
  datatype JoinDescriptor = AccountJoin | ContactJoin

  /** `$this->joinDescriptors[$key]`: only `account` and `contact` have one; anything else reads as null. */
  function JoinDescriptorFor(key: Param): (d: Option<JoinDescriptor>)
    ensures d.Some? <==> key == Account || key == Contact
  {
    match key
    case Account => Some(AccountJoin)
    case Contact => Some(ContactJoin)
    case _ => None
  }

  /** One `$listBuilder->where($descriptor, $value)` call. */
  datatype Where = Where(descriptor: Option<JoinDescriptor>, value: Value)

  /** What cgetAction lists: a flat list narrowed by where-conditions, or every activity. */
  datatype ListView = FlatList(conditions: seq<Where>) | FullCollection(activities: seq<Activity>)

  /** Position of a filter key in FilterKeys. */
  function Rank(key: Param): int {
    match key
    case Type => 0
    case Account => 1
    case Contact => 2
    case _ => 3
  }

  /** The `$filter` array: each of type, account, contact whose request value is truthy, in that order. */
  method BuildFilter(request: Request) returns (filter: seq<(Param, Value)>)
    ensures forall i :: 0 <= i < |filter| ==>
              && filter[i].0 in FilterKeys
              && filter[i].1 == Get(request, filter[i].0)
              && Truthy(filter[i].1)
    ensures forall key :: key in FilterKeys ==>
              (Truthy(Get(request, key)) <==> exists i :: 0 <= i < |filter| && filter[i].0 == key)
    ensures forall i, j :: 0 <= i < j < |filter| ==> Rank(filter[i].0) < Rank(filter[j].0)
  {
    filter := [];

    var activityType := Get(request, Type);
    if Truthy(activityType) {
      filter := filter + [(Type, activityType)];
    }

    var account := Get(request, Account);
    if Truthy(account) {
      filter := filter + [(Account, account)];
    }

    var contact := Get(request, Contact);
    if Truthy(contact) {
      filter := filter + [(Contact, contact)];
    }
    assert Truthy(activityType) ==> filter[0].0 == Type;
    assert Truthy(account) ==> filter[if Truthy(activityType) then 1 else 0].0 == Account;
    assert Truthy(contact) ==> filter[|filter| - 1].0 == Contact;
  }

  /** The `foreach ($filter as $key => $value)` loop: one where-condition per filter entry, in order. */
  method FilterConditions(filter: seq<(Param, Value)>) returns (conditions: seq<Where>)
    ensures |conditions| == |filter|
    ensures forall i :: 0 <= i < |filter| ==>
              conditions[i] == Where(JoinDescriptorFor(filter[i].0), filter[i].1)
  {
    conditions := [];
    for i := 0 to |filter|
      invariant |conditions| == i
      invariant forall k :: 0 <= k < i ==>
                  conditions[k] == Where(JoinDescriptorFor(filter[k].0), filter[k].1)
    {
      var (key, value) := filter[i];
      conditions := conditions + [Where(JoinDescriptorFor(key), value)];
    }
  }

  /**
   * `cgetAction`: with `flat == 'true'` the list is narrowed by one
   * where-condition per truthy filter parameter; otherwise every activity
   * (`findAllActivities`, given as `all`) is listed, unfiltered.
   */
  method CgetAction(request: Request, all: seq<Activity>) returns (view: ListView)
    ensures !LooselyEqualsTrueText(Get(request, Flat)) ==> view == FullCollection(all)
    ensures LooselyEqualsTrueText(Get(request, Flat)) ==>
              && view.FlatList?
              && (forall w :: w in view.conditions ==> Truthy(w.value))
              && (forall key :: key in FilterKeys && Truthy(Get(request, key)) ==>
                    Where(JoinDescriptorFor(key), Get(request, key)) in view.conditions)
              && (forall w :: w in view.conditions ==>
                    exists key :: key in FilterKeys && w == Where(JoinDescriptorFor(key), Get(request, key)))
  {
    var filter := BuildFilter(request);
    if LooselyEqualsTrueText(Get(request, Flat)) {
      var conditions := FilterConditions(filter);
      view := FlatList(conditions);
    } else {
      view := FullCollection(all);
    }
  }
}
