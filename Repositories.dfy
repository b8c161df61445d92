/**
 * Repositories as the controller sees them: a map from primary key to
 * record, one per entity name, and the two lookups of the controller,
 * `getEntityById` and `retrieveContactById`, that either return the record
 * or fail with "entity not found".
 */
module Repositories {
  import opened Wrappers
  import opened Php

  /** A referenced record (contact, account, status, priority or type). */
  datatype Entity = Entity(id: int, name: string)

  /** The signed-in user, stamped as creator and changer. */
  datatype User = User(id: int)

  const ActivityEntityName := "SuluActivityBundle:Activity"
  const ActivityStatusEntityName := "SuluActivityBundle:ActivityStatus"
  const ActivityTypeEntityName := "SuluActivityBundle:ActivityType"
  const ActivityPriorityEntityName := "SuluActivityBundle:ActivityPriority"

  /** What the outcome of a lookup is: the record, or the name and id that were not found. */
  datatype Lookup<E> = Found(entity: E) | Missing(entityName: string, id: Value)

  predicate IsDigit(c: char) {
    '0' <= c <= '9'
  }

  /** A non-empty string of decimal digits. */
  predicate IsDecimal(s: string) {
    s != [] && forall i :: 0 <= i < |s| ==> IsDigit(s[i])
  }

  /** The value of a non-empty string of decimal digits. */
  function DigitsValue(s: string): (n: nat)
    requires IsDecimal(s)
    ensures |s| == 1 ==> n == (s[0] as int) - ('0' as int)
  {
    var last := (s[|s| - 1] as int) - ('0' as int);
    assert IsDigit(s[|s| - 1]);
    if |s| == 1 then last else 10 * DigitsValue(s[..|s| - 1]) + last
  }

  /**
   * The primary key an id parameter denotes: an integer, or a string of
   * decimal digits as it arrives in a route or a form.  Nothing else
   * matches a row.
   */
  function IdKey(id: Value): (k: Option<int>)
    ensures id.Int? ==> k == Some(id.i)
    ensures id.Null? || id.Bool? || id.Arr? ==> k == None
  {
    match id
    case Int(n) => Some(n)
    case Str(s) =>
      if IsDecimal(s) then Some(DigitsValue(s)) else None
    case _ => None
  }

  /** `$repository->find($id)`. */
  function Find<E>(rows: map<int, E>, id: Value): (r: Option<E>)
    ensures r.Some? <==> IdKey(id).Some? && IdKey(id).value in rows
    ensures r.Some? ==> r.value == rows[IdKey(id).value]
  {
    match IdKey(id)
    case Some(k) => if k in rows then Some(rows[k]) else None
    case None => None
  }

  /** The entity manager: one repository per entity name. */
  type EntityManager<E> = map<string, map<int, E>>

  /** The contact repository service, which names its own entity class. */
  datatype ContactRepository = ContactRepository(className: string, rows: map<int, Entity>)

  /**
   * `getEntityById($entityName, $id)`: the record of that entity with that
   * id, or EntityNotFoundException carrying the name and id asked for.
   */
  function GetEntityById<E>(em: EntityManager<E>, entityName: string, id: Value): (r: Lookup<E>)
    requires entityName in em
    ensures r.Found? <==> IdKey(id).Some? && IdKey(id).value in em[entityName]
    ensures r.Found? ==> r.entity == em[entityName][IdKey(id).value]
    ensures r.Missing? ==> r.entityName == entityName && r.id == id
  {
    match Find(em[entityName], id)
    case Some(e) => Found(e)
    case None => Missing(entityName, id)
  }

  /**
   * `retrieveContactById($id)`: the contact with that id, or
   * EntityNotFoundException carrying the repository's class name and the id.
   */
  function RetrieveContactById(contacts: ContactRepository, id: Value): (r: Lookup<Entity>)
    ensures r.Found? <==> IdKey(id).Some? && IdKey(id).value in contacts.rows
    ensures r.Found? ==> r.entity == contacts.rows[IdKey(id).value]
    ensures r.Missing? ==> r.entityName == contacts.className && r.id == id
  {
    match Find(contacts.rows, id)
    case Some(c) => Found(c)
    case None => Missing(contacts.className, id)
  }

  /** The decimal text of a key, as a client writes it in a URL. */
  function DecimalText(n: nat): (s: string)
    ensures IsDecimal(s)
  {
    var digit := ((n % 10) + ('0' as int)) as char;
    if n < 10 then [digit] else DecimalText(n / 10) + [digit]
  }

  /** An id sent as decimal text finds the same row as the integer id. */
  lemma {:induction false} DecimalIdFindsSameRow<E>(rows: map<int, E>, n: nat)
    ensures IdKey(Str(DecimalText(n))) == Some(n)
    ensures Find(rows, Str(DecimalText(n))) == Find(rows, Int(n))
  {
    DigitsValueOfDecimalText(n);
  }

  lemma {:induction false} DigitsValueOfDecimalText(n: nat)
    ensures DigitsValue(DecimalText(n)) == n
  {
    var s := DecimalText(n);
    if n >= 10 {
      DigitsValueOfDecimalText(n / 10);
      assert s[..|s| - 1] == DecimalText(n / 10);
    }
  }
}
