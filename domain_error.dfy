/** The DomainError envelope: a tagged, human-readable failure, and the
    adapter that turns any caught value into one. `now` stands for the
    ISO-8601 text of the construction time. The module imports DomainEvents
    so that UnhandledEventToDomainError can pass the dispatcher's failure
    through the adapter. */
module DomainErrors {
  import opened Wrappers
  import opened Builtins
  import opened Json
  import DomainEvents

  /** A constructed DomainError (an `Error` subclass); it has no id. */
  datatype DomainError = DomainError(tag: string, message: string, createdAt: string) {

    /** `error.is(t)`: exact, case-sensitive comparison with the tag. */
    predicate Is(t: string) {
      tag == t
    }
  }

  /** `mkDomainError(tag, message)`, i.e. `new DomainError(tag, message)`:
      tag and message are stored as given. */
  function MkDomainError(tag: string, message: string, now: string): (d: DomainError)
    ensures d.tag == tag && d.message == message && d.createdAt == now
  {
    DomainError(tag, message, now)
  }

  /** An error answers `is` for its own tag and for no other. */
  lemma MkDomainErrorIs(tag: string, message: string, now: string, t: string)
    ensures MkDomainError(tag, message, now).Is(t) <==> t == tag
  {
  }

  /** The shapes a caught value can have, as the adapter tells them apart:
      a string primitive; a DomainError; any other Error whose `message` is
      a string; anything else, carried with the text `String(value)` gives. */
  datatype Caught =
    | StrValue(s: string)
    | DErr(err: DomainError)
    | NativeErr(error: JsError)
    | Other(repr: string)

  /** `toDomainError(tag)(caught)`: a DomainError tagged `tag` whose message
      is the best one available: the string itself, the message of an
      error, or the string form of anything else. It never fails once the
      `message` read and `String(value)` have returned; in JavaScript either
      can throw (a throwing getter or `toString`, or `Object.create(null)`),
      and the adapter then throws too. */
  function ToDomainError(tag: string, caught: Caught, now: string): (d: DomainError)
    ensures d.tag == tag && d.createdAt == now
    ensures caught.StrValue? ==> d.message == caught.s
    ensures caught.DErr? ==> d.message == caught.err.message
    ensures caught.NativeErr? ==> d.message == caught.error.message
    ensures caught.Other? ==> d.message == caught.repr
  {
    match caught
    case StrValue(s) => MkDomainError(tag, s, now)
    case DErr(err) => MkDomainError(tag, err.message, now)
    case NativeErr(error) => MkDomainError(tag, error.message, now)
    case Other(repr) => MkDomainError(tag, repr, now)
  }

  /** Whatever was caught, the result answers `is` for the adapter's tag
      and for no other. */
  lemma ToDomainErrorIs(tag: string, caught: Caught, now: string, t: string)
    ensures ToDomainError(tag, caught, now).Is(t) <==> t == tag
  {
  }

  /** Re-tagging keeps the diagnostic: normalising an already normalised
      error under a new tag changes the tag and keeps the message, and under
      its own tag and time gives the same error back. */
  lemma RetagKeepsMessage(t1: string, t2: string, caught: Caught, n1: string, n2: string)
    ensures var d := ToDomainError(t1, caught, n1);
      ToDomainError(t2, DErr(d), n2) == MkDomainError(t2, d.message, n2)
      && ToDomainError(t1, DErr(d), n1) == d
  {
  }

  /** The adapter's documented cases: "boom" under "E"; a DomainError
      ("A", "m") re-tagged "B"; an Error "oops"; and `undefined`, whose
      string form is "undefined". */
  lemma ToDomainErrorExamples(now: string, before: string)
    ensures ToDomainError("E", StrValue("boom"), now) == DomainError("E", "boom", now)
    ensures ToDomainError("B", DErr(MkDomainError("A", "m", before)), now) == DomainError("B", "m", now)
    ensures ToDomainError("T", NativeErr(JsError("oops")), now) == DomainError("T", "oops", now)
    ensures ToDomainError("T", Other("undefined"), now) == DomainError("T", "undefined", now)
  {
  }

  /** The dispatcher's failure, routed through the adapter as a caught
      value, becomes a DomainError with the caller's tag whose message still
      names the unhandled event tag. */
  lemma UnhandledEventToDomainError<P, R>(
    e: DomainEvents.DomainEvent<P>,
    cases: map<string, DomainEvents.DomainEvent<P> -> R>,
    onDefault: Option<DomainEvents.DomainEvent<P> -> R>,
    tag: string,
    now: string)
    requires e.tag !in cases && onDefault.None?
    ensures var out := DomainEvents.MatchDomainEvent(e, cases, onDefault);
      out.Threw?
      && ToDomainError(tag, NativeErr(out.error), now)
         == MkDomainError(tag, DomainEvents.UnhandledPrefix + e.tag, now)
  {
  }

  /** `showDomainError(d)`: timestamp and the whole tag, then spaces only,
      then the message; the tag column is max(12, tag length) UTF-16 code
      units wide. */
  function ShowDomainError(d: DomainError): (r: string)
    ensures Framed(r, d.createdAt + " :: " + d.tag, " :: " + d.message)
    ensures Utf16Length(r) == Utf16Length(d.createdAt + " :: ") + Max(TagWidth, Utf16Length(d.tag))
                              + Utf16Length(" :: " + d.message)
  {
    PaddedLine(d.createdAt + " :: ", d.tag, TagWidth, " :: " + d.message)
  }

  /** ShowDomainError's contract is a complete specification: the only line
      with the timestamp and tag in front, spaces after the tag, the message
      at the end, and the promised length, is the rendered one. */
  lemma ShowDomainErrorDetermined(d: DomainError, r: string)
    requires Framed(r, d.createdAt + " :: " + d.tag, " :: " + d.message)
    requires Utf16Length(r) == Utf16Length(d.createdAt + " :: ") + Max(TagWidth, Utf16Length(d.tag))
                               + Utf16Length(" :: " + d.message)
    ensures r == ShowDomainError(d)
  {
    FramedUnique(r, ShowDomainError(d), d.createdAt + " :: " + d.tag, " :: " + d.message);
  }

  /** The rendered line as one padded column between the timestamp and the
      message, in the form the column lemma takes. */
  lemma ShowDomainErrorLine(d: DomainError)
    ensures ShowDomainError(d) == PaddedLine(d.createdAt + " :: ", d.tag, TagWidth, " :: " + d.message)
  {
  }

  /** Columns line up: for every tag that fits the column, the message
      starts 20 code units after the timestamp. */
  lemma ShowDomainErrorMessageColumn(d: DomainError)
    requires Utf16Length(d.tag) <= TagWidth
    ensures ColumnAt(ShowDomainError(d), d.message, Utf16Length(d.createdAt) + 20)
  {
    ShowDomainErrorLine(d);
    NextColumnOffset(d.createdAt, d.tag, TagWidth, d.message);
  }

  /** `domainErrorToJSON(d)`: exactly the properties `_tag`, `message` and
      `createdAt`, in that order, each reading back as the error's own. No
      property carries a payload, so the record's payload type is unit. */
  function DomainErrorToJSON(d: DomainError): (r: Record<()>)
    ensures Keys(r) == ["_tag", "message", "createdAt"]
    ensures Get(r, "_tag") == Some(Str(d.tag))
    ensures Get(r, "message") == Some(Str(d.message))
    ensures Get(r, "createdAt") == Some(Str(d.createdAt))
  {
    var r := [Field("_tag", Str(d.tag)), Field("message", Str(d.message)),
              Field("createdAt", Str(d.createdAt))];
    GetStored(r, 0);
    GetStored(r, 1);
    GetStored(r, 2);
    r
  }
}
