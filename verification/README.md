# AddedThread construction, in Dafny

This project models the construction-time validation of the forum backend's
`AddedThread` entity: the record a thread repository returns after a new
thread is stored. The constructor takes a raw payload (property name to
loosely typed value). It either rejects the payload with one of two error
kinds, `ADDED_THREAD.NOT_CONTAIN_NEEDED_PROPERTY` or
`ADDED_THREAD.NOT_MEET_DATA_TYPE_SPECIFICATION`, or yields an entity whose
`id`, `title` and `owner` are the payload's strings.

The entity's own source file is not part of this model; its contract is the
one fixed by its unit test, `src/Domains/threads/entities/_test/AddedThread.test.js`.

Files:

- `values.dfy` (module `Values`): JSON-like payload values and JavaScript's `typeof`.
- `validation.dfy` (module `Validation`): the two shape checks, "a required
  property is absent" and "a present required property is not a string".
- `added_thread.dfy` (module `AddedThreads`): error kinds and their codes, the
  entity, and `Create`, the constructor as a pure function returning a `Result`.
- `added_thread_properties.dfy` (module `AddedThreadProperties`): what
  `Create` promises, in general and for the three payloads of the unit test.

A thrown error is modelled as `Err(kind)`, and a constructed entity as
`Ok(entity)`. So a rejected payload never yields an entity, and every entity
that exists carries three strings by its type.

## Model

| member | source | states |
|---|---|---|
| Values.TypeOf | src/Domains/threads/entities/_test/AddedThread.test.js:17-21 | a value's `typeof` is "string" exactly for strings; a number is "number", a boolean "boolean", and null, arrays and objects such as `{}` are "object" |
| Validation.AnyMissing | src/Domains/threads/entities/_test/AddedThread.test.js:4-13 | holds exactly when some required property name is not a key of the payload |
| Validation.AnyMistyped | src/Domains/threads/entities/_test/AddedThread.test.js:15-26 | holds exactly when some required property is present but its `typeof` is not "string"; an absent property is never a type error |
| Validation.WellShaped | src/Domains/threads/entities/_test/AddedThread.test.js:15-37 | a payload passes both checks exactly when every required property is present and holds a string |
| AddedThreads.Code | src/Domains/threads/entities/_test/AddedThread.test.js:24-25 | every error code carries the `ADDED_THREAD.` prefix |
| AddedThreads.CodesDistinguishKinds | src/Domains/threads/entities/_test/AddedThread.test.js:11-25 | two error kinds report the same code only if they are the same kind, so the reason for a rejection is always distinguishable |
| AddedThreads.PayloadOf | src/Domains/threads/entities/_test/AddedThread.test.js:30-34 | the payload built from an entity has exactly the keys `id`, `title` and `owner`, all strings |
| AddedThreads.Create | src/Domains/threads/entities/_test/AddedThread.test.js:3-46 | accepts exactly the payloads whose `id`, `title` and `owner` are all present strings, and the entity then holds those strings; rejects exactly when a property is absent or mistyped; a "not contain needed property" rejection implies an absent property and a "data type" rejection implies a mistyped one |
| AddedThreadProperties.MissingIsNotContainNeededProperty | src/Domains/threads/entities/_test/AddedThread.test.js:4-13 | a payload lacking a required property, with nothing mistyped among the ones it has, is rejected with `NOT_CONTAIN_NEEDED_PROPERTY` |
| AddedThreadProperties.MistypedIsNotMeetDataTypeSpecification | src/Domains/threads/entities/_test/AddedThread.test.js:15-26 | a payload supplying all three properties, at least one of them not a string, is rejected with `NOT_MEET_DATA_TYPE_SPECIFICATION` |
| AddedThreadProperties.CreateYields | src/Domains/threads/entities/_test/AddedThread.test.js:28-44 | construction yields entity `t` if and only if the payload contains `t`'s `id`, `title` and `owner` as strings (other properties may be present too) |
| AddedThreadProperties.RoundTrip | src/Domains/threads/entities/_test/AddedThread.test.js:28-44 | constructing from an entity's own fields gives that entity back |
| AddedThreadProperties.RejectedIffNoEntity | src/Domains/threads/entities/_test/AddedThread.test.js:11-44 | a payload is rejected if and only if it carries the fields of no entity at all: outcomes are exclusive |
| AddedThreadProperties.OnlyIdIsRejected | src/Domains/threads/entities/_test/AddedThread.test.js:4-13 | `{id: 'thread-123'}` is rejected with `NOT_CONTAIN_NEEDED_PROPERTY`, not with the type error |
| AddedThreadProperties.WrongTypesAreRejected | src/Domains/threads/entities/_test/AddedThread.test.js:15-26 | `{id: 123, title: true, owner: {}}` is rejected with `NOT_MEET_DATA_TYPE_SPECIFICATION` |
| AddedThreadProperties.SamplePayloadIsAccepted | src/Domains/threads/entities/_test/AddedThread.test.js:28-44 | `{id: 'thread-123', title: 'Sample Title', owner: 'user-123'}` is accepted and the entity's fields equal the payload's |

## Left out

- The entity's implementation file (`src/Domains/threads/entities/AddedThread.js`) is not part of this model; the model follows what its unit test pins down.
- AddedThreads.Create: checks absence before types, but no contract or lemma states that order, because the unit test does not fix which error wins when a payload both lacks a property and has a mistyped one.
- A property counts as missing only when its key is absent. Whether the constructor also treats present but falsy values (an empty string, `null`) as missing is decided by code outside this model.
- Throwing, `toThrowError` and the full error message text are represented by the `Result` datatype and the `Code` function.
- JavaScript numbers are modelled as mathematical reals; only their type matters here.
- The HTTP integration tests for threads and comments (server injection, bearer-token authentication, the Postgres pool and table cleaning, status codes, localized messages, console output) are transport and persistence concerns, not entity logic.
- New-thread and new-comment payload validation seen through those HTTP tests runs through entity classes whose source and unit tests are not part of this model, so their required-field lists are not modelled.
- Use cases, repositories, ownership checks, soft-delete redaction, like toggling and thread-detail assembly have no source in this model.
