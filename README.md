# Domain envelopes: Command, DomainEvent, DomainError

A Dafny model of the three immutable envelopes of an event-sourcing domain
layer:

- a **Command** records an intent;
- a **DomainEvent** records a fact, tied to the command that caused it and to
  the aggregate it belongs to;
- a **DomainError** records a tagged failure.

For each envelope the model covers construction, the `is(tag)` test, the
one-line rendering with its padded tag column, and the projection to a plain
record. It also covers the tag-based event dispatcher `matchDomainEvent` and
the adapter `toDomainError`, which turns any caught value into a DomainError.

Every envelope is immutable after construction, so each one is a `datatype`
and every operation is a function. The outside world enters as parameters:

- `id` is the string `nanoid()` would return.
- `now` is the `toISOString()` text of the construction time.
- `stringify: P -> Stringified` is `JSON.stringify` on payloads. Its outcome is
  JSON text, `undefined` or a thrown exception.

Modules:

- `Builtins`: the JavaScript pieces the renderers use. These are string length
  in UTF-16 code units, `String.prototype.padEnd` as section 22.1.3.16 of
  ECMAScript 2024 (ECMA-262) defines it, and the plain `Error` object.
- `Json`: the outcome of `JSON.stringify`, the payload text a renderer shows,
  and plain objects as ordered key/value lists with `Object.keys` and property
  lookup.
- `Commands`, `DomainEvents`, `DomainErrors`: one module per source file.
  `DomainErrors` imports `DomainEvents` so that
  `UnhandledEventToDomainError` can pass the dispatcher's failure through the
  adapter.

Notes on the model:

- The projected records use the key `_tag` (not `tag`), because that is what
  the code builds.
- `JSON.stringify` returns `undefined` for `undefined`, functions and symbols,
  without throwing. The template literal then shows the text `undefined`, so
  the model has that third outcome beside the JSON text and the
  `[unserializable]` placeholder.

## Model

| member | source | states |
|---|---|---|
| Builtins.Utf16Length | src/domain/command.ts:33 | the length `padEnd` measures counts UTF-16 code units: between one and two per character |
| Builtins.PadEnd | src/domain/command.ts:33 | `padEnd(12)` keeps the whole tag (never truncates), appends only spaces, and the result is max(12, tag length) UTF-16 code units long |
| Builtins.PadEndUnique | src/domain/command.ts:33 | those three properties determine the padded string uniquely |
| Builtins.PadEndLengthInBmp | src/domain/command.ts:33 | for a tag of Basic Multilingual Plane characters, the padded tag has max(12, number of tag characters) characters |
| Builtins.PaddedLine | src/domain/command.ts:33 | a line `pre + tag.padEnd(width) + post` is `pre` and the whole tag, then spaces only, then `post`; its length is the lengths of `pre` and `post` plus the column width max(width, tag length) |
| Builtins.FramedUnique | src/domain/command.ts:33 | a line made of a given head, then spaces only, then a given tail is determined by its length |
| Builtins.NextColumnOffset | src/domain/command.ts:33 | in `lead :: tag.padEnd(width) :: rest` with a tag that fits, `rest` starts `width` + 8 code units after the lead |
| Json.PayloadText | src/domain/command.ts:25-33 | the payload text of a line: the JSON text when `JSON.stringify` returns one, the text `undefined` when it returns `undefined`, and `[unserializable]` when it throws |
| Commands.MkCommand | src/domain/command.ts:10-22 | `mkCommand` / the constructor stores tag and payload unchanged; only id and createdAt come from the id generator and the clock |
| Commands.MkCommandIs | src/domain/command.ts:17-19 | `is(t)` on a new command is true exactly when `t` equals its tag |
| Commands.ShowCommand | src/domain/command.ts:24-34 | the line is timestamp, " :: " and the whole tag, then spaces, then " :: ", id, " => " and the payload text; the tag column is max(12, tag length) wide; rendering is total |
| Commands.ShowCommandDetermined | src/domain/command.ts:24-34 | ShowCommand's contract fixes the line completely: any string meeting it is the rendered line |
| Commands.ShowCommandUnserializable | src/domain/command.ts:27-33 | when `JSON.stringify` throws on the payload, the line ends with `[unserializable]` |
| Commands.ShowCommandIdColumn | src/domain/command.ts:33 | for tags of at most 12 code units, the id column starts 20 code units after the timestamp, whatever the tag |
| Commands.CmdToJSON | src/domain/command.ts:36-41 | the record has exactly the keys `_tag`, `id`, `createdAt`, `payload` in that order; reading each back gives the command's own field, and the payload is the raw value |
| DomainEvents.MkDomainEvent | src/domain/domain-event.ts:12-33 | `mkDomainEvent` / the constructor stores tag, command id, aggregate id and payload unchanged; only id and createdAt come from outside |
| DomainEvents.MkInitDomainEvent | src/domain/domain-event.ts:35-43 | `mkInitDomainEvent` gives aggregate id `INIT_AGGREGATE_ID` and is otherwise exactly `mkDomainEvent` with that aggregate id |
| DomainEvents.MkDomainEventIs | src/domain/domain-event.ts:21-23 | `is(t)` on a new event is true exactly when `t` equals its tag |
| DomainEvents.InitEventDetectable | src/domain/domain-event.ts:35-43 | init events carry the sentinel; an event from `mkDomainEvent` carries it only if the caller passed it |
| DomainEvents.ShowDomainEvent | src/domain/domain-event.ts:45-54 | the line is timestamp, command id, aggregate id and the whole tag joined by " :: ", then spaces, then " :: ", id, " => " and the payload text; the tag column is max(12, tag length) wide; rendering is total |
| DomainEvents.ShowDomainEventDetermined | src/domain/domain-event.ts:45-54 | ShowDomainEvent's contract fixes the line completely: any string meeting it is the rendered line |
| DomainEvents.ShowDomainEventUnserializable | src/domain/domain-event.ts:46-53 | when `JSON.stringify` throws on the payload, the line ends with `[unserializable]` |
| DomainEvents.ShowDomainEventIdColumn | src/domain/domain-event.ts:53 | for tags of at most 12 code units, the event id starts 20 code units after the aggregate id column ends |
| DomainEvents.DomainEventToJSON | src/domain/domain-event.ts:56-63 | the record has exactly the keys `_tag`, `id`, `commandId`, `aggregateId`, `createdAt`, `payload` in that order, each reading back as the event's own field, the payload raw |
| DomainEvents.MatchDomainEvent | src/domain/domain-event.ts:67-83 | with a handler for the tag, its result on the event; otherwise the default's result; it throws exactly when there is neither, with message "Unhandled domain event tag: " + tag |
| DomainEvents.MatchIgnoresDefaultWhenHandled | src/domain/domain-event.ts:72-76 | when the tag has a handler, the default does not affect the outcome |
| DomainEvents.MatchOtherTagsIrrelevant | src/domain/domain-event.ts:72-76 | adding a handler for a different tag does not change the outcome for this event |
| DomainEvents.UnhandledMessageNamesTag | src/domain/domain-event.ts:82 | the thrown message is the fixed prefix followed by exactly the event's tag |
| DomainEvents.MatchExamples | src/domain/domain-event.ts:67-83 | the dispatch examples for tag "X": handler result, default result, and an error naming "X" |
| DomainErrors.MkDomainError | src/domain/domain-error.ts:9-28 | `mkDomainError` / the constructor stores tag and message unchanged |
| DomainErrors.MkDomainErrorIs | src/domain/domain-error.ts:18-20 | `is(t)` on a new error is true exactly when `t` equals its tag |
| DomainErrors.ToDomainError | src/domain/domain-error.ts:30-45 | the result always has the caller's tag; its message is the string itself, the DomainError's message, the Error's message, or `String(value)`, by shape; it never fails once the `message` read and `String(value)` have returned |
| DomainErrors.ToDomainErrorIs | src/domain/domain-error.ts:30-45 | for every caught value, the result's `is(t)` is true exactly for the caller's tag |
| DomainErrors.RetagKeepsMessage | src/domain/domain-error.ts:34-37 | normalising a DomainError replaces its tag and keeps its message; under its own tag and time it gives the same error back |
| DomainErrors.ToDomainErrorExamples | src/domain/domain-error.ts:30-45 | the adapter on "boom", on a DomainError ("A", "m") re-tagged "B", on an Error "oops", and on `undefined` |
| DomainErrors.UnhandledEventToDomainError | src/domain/domain-event.ts:82 | the dispatcher's "unhandled tag" Error, passed through the adapter, gives a DomainError with the caller's tag whose message names the event tag |
| DomainErrors.ShowDomainError | src/domain/domain-error.ts:47-49 | the line is timestamp, " :: " and the whole tag, then spaces, then " :: " and the message; the tag column is max(12, tag length) wide |
| DomainErrors.ShowDomainErrorDetermined | src/domain/domain-error.ts:47-49 | ShowDomainError's contract fixes the line completely: any string meeting it is the rendered line |
| DomainErrors.ShowDomainErrorMessageColumn | src/domain/domain-error.ts:48 | for tags of at most 12 code units, the message starts 20 code units after the timestamp |
| DomainErrors.DomainErrorToJSON | src/domain/domain-error.ts:51-55 | the record has exactly the keys `_tag`, `message`, `createdAt` in that order, each reading back as the error's own field |

## Left out

- Id generation with `nanoid()` (src/domain/command.ts:12, src/domain/domain-event.ts:14): the id is a parameter. Uniqueness is probabilistic and not claimed.
- Clock reads with `new Date()` and the date format of `toISOString()`: the timestamp is the ISO text the caller supplies. Its format and parsing it back are not modelled. The rendering lemmas take its length as given.
- `JSON.stringify` itself: it is a caller-supplied function from payload to outcome. JSON encoding is not modelled.
- Strings are sequences of Unicode scalar values. A JavaScript string holding a lone surrogate cannot be represented. Lengths are counted in UTF-16 code units, as JavaScript does.
- `padEnd` is modelled only with the default filler " ", the only one the code uses.
- DomainEvents.MatchDomainEvent: `cases` is a finite map. On a JavaScript object, a tag such as `toString` would find an inherited property, and an entry holding a falsy value would count as absent. Neither is modelled.
- DomainEvents.MatchDomainEvent: handlers and the default are total functions. Their side effects and their exceptions are not modelled.
- DomainErrors.ToDomainError: a caught value arrives already classified by its JavaScript runtime shape: a string primitive, a DomainError, another Error with a string message, or anything else. The `typeof`/`instanceof` tests are not modelled. An Error whose `message` is not a string is an `Other` value, as in the code. The text `String(value)` is supplied with the value, because it can run user `toString` code. In JavaScript `String(value)` throws for an object without `toString` and `valueOf` (such as `Object.create(null)`) or one whose `toString`, `valueOf` or `Symbol.toPrimitive` throws, and reading `message` can run a throwing getter; the adapter then throws. The model assumes both return, so its totality holds only under that assumption.
- The inherited `Error` properties of DomainError (`name`, `stack`) are not modelled. A DomainError is assumed to keep a string message.
- Generic type parameters are Dafny type parameters. The unused imports of src/domain/domain-error.ts:1-3 are not modelled.
