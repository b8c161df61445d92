# Activity write pipeline of the Sulu activity bundle, in Dafny

This project models the core of `ActivityController`, the REST controller of
the Sulu activity bundle:

- **Create and update.** `postAction` and `putAction` run
  `processActivityData`, which calls `processRequiredData`. These read a
  request, resolve ids through repositories, and write an Activity record
  field by field.
- **List filters.** `cgetAction` builds the filter for the activity list.

The model has five modules:

- `Php` (in `Php.dfy`, beside a small `Wrappers` module): request values
  and the PHP comparisons the controller relies on. `is_null` is strict.
  Loose `== null` treats null, `false`, `0`, `""` and `[]` as missing, but
  not `"0"`. Truthiness is PHP's, and `flat == 'true'` uses loose equality.
- `Repositories`: each repository is a map from primary key to record.
  `getEntityById` and `retrieveContactById` are functions that return the
  record or fail with not-found. The failure carries the entity name and
  the id that was asked for.
- `ActivityEntity`: the Activity record is a class with nullable (`Option`)
  fields. `ActivityState` is a snapshot of all its fields.
- `ActivitySpec`: the pipeline as functions on `ActivityState`.
  `RequiredData`, `Details` and `Owner` are the three parts of
  `processActivityData`, and `ResolveReference` is the step `Details`
  takes for each of status, priority and type. `ActivityData` is the whole
  of `processActivityData`, and `Create`
  is `postAction`'s version. Each returns the state the Activity is left in
  and an `Outcome`: `Ok`, `NotFound(entity, id)` or `Rest(message)`. A
  request is a map from `Param`, the names the controller reads
  (`subject`, `dueDate`, `assignedContact`, ..., `type`, `flat`), to values.
  `ActivityProperties` proves what the pipeline guarantees about these
  functions. It also gives an independent statement of error precedence:
  the ordered list of checks the pipeline makes, and the first one that
  fails.
- `ActivityController`: the controller actions as imperative methods. The
  write actions (`postAction`, `putAction` and the processing they call)
  change the Activity step by step, as the PHP setters do, and are proved
  to leave it in exactly the state the specification gives. The list
  action builds its filter and where-conditions with the code's own
  conditionals and loop. Calls
  to Doctrine's persist and flush are recorded in a log object, so the
  contracts can say they happen only after processing succeeds. The clock
  (`now`) and the signed-in user are explicit parameters.

The model follows the code in three behaviours that a reader of the API might not expect:

- **assignedContact is not always enforced.** It counts as a required
  field. But when `assignedContact` is a non-empty object whose `id` is
  null, the code skips the lookup. On create the activity is stored
  without an assigned contact (`CreateWithNullAssignedContactId`,
  `CreateWithoutAssignedContact`); on update it keeps the assigned contact
  it had (`AssignedContactResolution`).
- **Error messages.** Their texts are the code's: "There is no name or
  dueDate or assignedContact for the activity given" and "No account or
  contact set!".
- **The `type` filter.** The list filter accepts `type`, but no join
  descriptor exists for it. In flat mode the where-condition for `type`
  therefore gets a null descriptor (`None`). The model gives that null no
  further meaning.

## Model

| member | source | states |
|---|---|---|
| `Php.LooselyNull` | Controller/ActivityController.php:604-607 | `$v == null` holds exactly for falsy values other than the string "0"; a strict null is loosely null |
| `Php.Truthy` | Controller/ActivityController.php:342-355 | `if ($x)` fails exactly for PHP's falsy values: null, false, 0, "", "0" and the empty array |
| `Php.Index` | Controller/ActivityController.php:617 | `$x['id']` is the entry when `$x` is an array holding that key, and null otherwise |
| `Php.LooselyEqualsTrueText` | Controller/ActivityController.php:357 | `flat == 'true'` holds exactly for the string "true" and boolean true |
| `Repositories.Find` | Controller/ActivityController.php:582 | a repository `find` returns a record exactly when the id denotes a key of the repository, and then the record under that key |
| `Repositories.GetEntityById` | Controller/ActivityController.php:578-588 | returns the record of the named repository with that id when there is one; otherwise fails with not-found carrying the entity name and id passed in |
| `Repositories.RetrieveContactById` | Controller/ActivityController.php:636-644 | returns the contact with that id when there is one; otherwise fails with not-found carrying the contact repository's class name and the id |
| `Repositories.DecimalIdFindsSameRow` | Controller/ActivityController.php:408 | an id sent as decimal text, as a route parameter is, finds the same row as the integer id |
| `ActivityEntity.Activity.constructor` | Controller/ActivityController.php:467 | a new Activity has every field null |
| `ActivitySpec.StatusCode` | Controller/ActivityController.php:426-430 | not-found maps to 404, any other RestException to 400, normal completion to 200 |
| `ActivitySpec.RequiredData` | Controller/ActivityController.php:598-625 | fails with the required-field RestException exactly when subject, dueDate or assignedContact is loosely null, leaving the Activity unchanged; a not-found names the contact entity and the assignedContact id; never touches creator or created |
| `ActivitySpec.ResolveReference` | Controller/ActivityController.php:520-543 | a null status, priority or type changes nothing; a present one succeeds exactly when its `id` names a row, then stores that row in its field, and otherwise fails with not-found for that entity and the `id`, leaving the Activity as it was; only the status, priority and type fields are ever written |
| `ActivitySpec.Details` | Controller/ActivityController.php:509-546 | ends normally or with not-found, never with another RestException, and writes only note, startDate, status, priority and type; their values are stated by `OptionalFieldsOnlyWhenPresent` |
| `ActivitySpec.Owner` | Controller/ActivityController.php:547-565 | writes only account and contact, and on success exactly one of them is set; which one is stated by `OwnerExclusive` |
| `ActivitySpec.ActivityData` | Controller/ActivityController.php:505-566 | never writes creator or created; on success exactly one of account and contact is set; a RestException other than not-found carries one of the two messages of the code; the outcome is characterised by `ErrorPrecedence` |
| `ActivitySpec.Create` | Controller/ActivityController.php:463-473 | the outcome and every field other than creator and created are those processing leaves on a fresh Activity; on success creator and created are the user and the current time, on failure they stay null |
| `ActivityProperties.MissingRequiredLeavesActivityUntouched` | Controller/ActivityController.php:600-611 | a missing required field makes processing fail with that RestException before any field of the Activity is written |
| `ActivityProperties.SuccessStampsRequiredData` | Controller/ActivityController.php:613-624 | after successful processing, subject and dueDate hold the request values and changed/changer hold the current time and user |
| `ActivityProperties.AssignedContactResolution` | Controller/ActivityController.php:617-643 | a null assignedContact id leaves assignedContact as it was, whatever the outcome; an unknown id fails with not-found(contact entity, id) after only subject and dueDate were written; a known id sets the contact |
| `ActivityProperties.OwnerExclusive` | Controller/ActivityController.php:547-565 | after success exactly one of account and contact is set: the account looked up by id (contact cleared) when account is given, else the contact (account cleared); with neither given processing fails, and with "No account or contact set!" exactly when every earlier step succeeded |
| `ActivityProperties.OptionalFieldsOnlyWhenPresent` | Controller/ActivityController.php:509-546 | after success note, status, priority, type and startDate hold the request's value or looked-up record when their parameter is present, and their previous value when it is absent |
| `ActivityProperties.ProcessingKeepsCreation` | Controller/ActivityController.php:505-565 | processing never writes creator or created, whatever its outcome |
| `ActivityProperties.CreateOwner` | Controller/ActivityController.php:463-473 | a successfully created Activity has exactly one owner: the account and no contact when an account is given, otherwise the contact and no account |
| `ActivityProperties.CreateStampsCreator` | Controller/ActivityController.php:467-472 | on create, creator and created are set to the user and the current time exactly when processing succeeded, and stay null otherwise |
| `ActivityProperties.ProcessingIsIdempotent` | Controller/ActivityController.php:505-565 | processing the same request again at the same instant by the same user leaves the Activity as it is and succeeds |
| `ActivityProperties.CreateWithNullAssignedContactId` | Controller/ActivityController.php:617-620 | every create whose assignedContact has a null or missing id stores no assigned contact, whatever its outcome |
| `ActivityProperties.CreateWithoutAssignedContact` | Controller/ActivityController.php:617-620 | a witness that such a create passes the required-field check: one concrete request with `assignedContact: {id: null}` and a known contact succeeds, with no assigned contact and that contact as owner |
| `ActivityProperties.ErrorPrecedence` | Controller/ActivityController.php:505-565 | the outcome is the failure of the first failing check in the order required fields, assignedContact, status, priority, type, account, owner present, contact; it does not depend on the Activity's prior state, the clock or the user |
| `ActivityProperties.SucceedsIffAllChecksPass` | Controller/ActivityController.php:505-565 | processing succeeds exactly when every check passes |
| `ActivityController.ProcessRequiredData` | Controller/ActivityController.php:598-625 | writes subject, dueDate, assignedContact, changed and changer step by step and stops at the first exception, leaving exactly the state and outcome of `RequiredData` |
| `ActivityController.ProcessActivityData` | Controller/ActivityController.php:505-566 | leaves the Activity in exactly the state, and with the outcome, of `ActivityData` |
| `ActivityController.ProcessDetails` | Controller/ActivityController.php:509-546 | applies the optional setters in order and stops at the first not-found, as `Details` states |
| `ActivityController.ProcessReference` | Controller/ActivityController.php:520-543 | looks up and sets one of status, priority and type when its parameter is not null, as `ResolveReference` states |
| `ActivityController.ProcessOwner` | Controller/ActivityController.php:547-565 | sets account and clears contact, or sets contact and clears account, or fails, as `Owner` states |
| `ActivityController.PostAction` | Controller/ActivityController.php:463-495 | a fresh Activity ends in the state of `Create`; on success persist then flush are called and the response is 200 with the activity; on an exception neither is called and the response is 404 or 400 with the error |
| `ActivityController.PutAction` | Controller/ActivityController.php:404-433 | an unknown id gives a 404 not-found for the activity entity; otherwise the stored Activity ends in the state of `ActivityData` (creator and created untouched), and persist and flush are called only on success, with 200, 404 or 400 as the response |
| `ActivityController.JoinDescriptorFor` | Controller/ActivityController.php:263-289 | a join descriptor exists exactly for the filter keys account and contact |
| `ActivityController.BuildFilter` | Controller/ActivityController.php:340-355 | the filter holds exactly those of type, account and contact whose request value is truthy, each with that value, in that order |
| `ActivityController.FilterConditions` | Controller/ActivityController.php:371-373 | one where-condition per filter entry, in filter order, with that key's join descriptor and the entry's value |
| `ActivityController.CgetAction` | Controller/ActivityController.php:338-394 | with `flat == 'true'` the conditions are exactly the where-conditions of the truthy type/account/contact parameters; otherwise every activity is returned unfiltered |

## Left out

- The field-descriptor table built in `setContainer` (Controller/ActivityController.php:70-290) is static configuration for the list builder. Only the presence of the `account` and `contact` join descriptors is modelled.
- `fieldsAction`, `getAction` and `deleteAction` are left out. They hand the work to `responseGetById` and `responseDelete` in the `RestController` base class, which is not part of this model.
- The list builder and its execution, paging, sorting and count are foreign library code, as are `ListRepresentation` and `CollectionRepresentation`. The flat result is the list of where-conditions the builder receives. The unflat result is `findAllActivities`, which is passed in as `all`.
- Date parsing is not modelled. `new \DateTime($v)` becomes `Parsed(v)`. The exception thrown for unparsable text is not caught by the controller and is not modelled.
- The clock is read twice on create: for `changed` in `processRequiredData` and for `created` in `postAction`. Both reads are given the same instant `now`.
- Only the request parameters the controller reads are modelled, as the `Param` names. A request is a map from them to values.
- Request values are null, booleans, integers, strings and string-keyed arrays. Floats are not modelled.
- `$v['id']` on a value that is not an array gives null in the model. On a string PHP does otherwise: PHP 7 reads the offset `'id'` as 0, so `"5"['id']` is `"5"`, and PHP 8 throws on a non-numeric string offset. The model follows neither, so a request with `assignedContact: "5"` succeeds in the model without an assigned contact, where PHP 7 would look up contact 5 and PHP 8 would fail.
- `flat` compares as in PHP 8. PHP 7's comparison of an integer with `'true'` (which is true for 0) is not modelled.
- Repository ids are simplified. An integer or a string of decimal digits finds the row with that key, and any other id finds nothing, which includes null. The database's other coercions are not modelled. So is Doctrine's own error for a null or malformed id, which the controller does not catch.
- Every lookup method requires `Registered`: the entity manager must know the status, priority, type and account entities. That is deployment configuration. The controller does not check it.
- Doctrine's persistence is reduced to a log of persist and flush calls. Id assignment, the identity map and transactions are not modelled. On an update that fails part-way, the in-memory entity keeps the fields already set, but nothing is flushed.
- Exceptions other than `RestException` and `EntityNotFoundException` are not modelled. They escape the actions.
- Serialization groups, the user's locale, `handleView` and the HTTP response object are not modelled. A response is its status and either the activity's state or the error.
