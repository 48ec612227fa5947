/** The DomainEvent envelope: a fact produced after a command was handled,
    correlated with that command and with the aggregate it belongs to, and
    the tag-based dispatcher over such events. As for commands, `id` and
    `now` stand for the generated id and the ISO-8601 construction time. */
module DomainEvents {
  import opened Wrappers
  import opened Builtins
  import opened Json

  /** A constructed DomainEvent; every field is read-only. */
  datatype DomainEvent<P> = DomainEvent(
    tag: string,
    id: string,
    createdAt: string,
    commandId: string,
    aggregateId: string,
    payload: P)
  {
    /** `event.is(t)`: exact, case-sensitive comparison with the tag. */
    predicate Is(t: string) {
      tag == t
    }
  }

  /** The reserved aggregate id of an event that creates a new aggregate. */
  const InitAggregateId := "INIT_AGGREGATE_ID"

  /** `mkDomainEvent(tag, cid, aid, payload)`, i.e. the DomainEvent
      constructor: the four arguments are stored as given; only the id and
      the time come from outside. */
  function MkDomainEvent<P>(tag: string, cid: string, aid: string, payload: P, id: string, now: string)
    : (e: DomainEvent<P>)
    ensures e.tag == tag && e.commandId == cid && e.aggregateId == aid && e.payload == payload
    ensures e.id == id && e.createdAt == now
  {
    DomainEvent(tag, id, now, cid, aid, payload)
  }

  /** `mkInitDomainEvent(tag, cid, payload)`: the event carries the reserved
      aggregate id and is otherwise the event mkDomainEvent builds. */
  function MkInitDomainEvent<P>(tag: string, cid: string, payload: P, id: string, now: string)
    : (e: DomainEvent<P>)
    ensures e.aggregateId == InitAggregateId
    ensures e == MkDomainEvent(tag, cid, InitAggregateId, payload, id, now)
  {
    DomainEvent(tag, id, now, cid, InitAggregateId, payload)
  }

  /** An event answers `is` for its own tag and for no other. */
  lemma MkDomainEventIs<P>(tag: string, cid: string, aid: string, payload: P, id: string, now: string, t: string)
    ensures MkDomainEvent(tag, cid, aid, payload, id, now).Is(t) <==> t == tag
    ensures MkInitDomainEvent(tag, cid, payload, id, now).Is(t) <==> t == tag
  {
  }

  /** Consumers detect aggregate-creating events by the sentinel: an event
      built by mkDomainEvent carries it only if the caller passed it. */
  lemma InitEventDetectable<P>(tag: string, cid: string, aid: string, payload: P, id: string, now: string)
    ensures MkInitDomainEvent(tag, cid, payload, id, now).aggregateId == InitAggregateId
    ensures MkDomainEvent(tag, cid, aid, payload, id, now).aggregateId == InitAggregateId
            <==> aid == InitAggregateId
  {
  }

  /** `showDomainEvent(e)`, where `stringify` is `JSON.stringify` on payloads:
      timestamp, command id, aggregate id and the whole tag, then spaces
      only, then the event id and the payload text; the tag column is
      max(12, tag length) UTF-16 code units wide. */
  function ShowDomainEvent<P>(e: DomainEvent<P>, stringify: P -> Stringified): (r: string)
    ensures var lead := e.createdAt + " :: " + e.commandId + " :: " + e.aggregateId + " :: ";
      var rest := e.id + " => " + PayloadText(stringify(e.payload));
      Framed(r, lead + e.tag, " :: " + rest)
      && Utf16Length(r) == Utf16Length(lead) + Max(TagWidth, Utf16Length(e.tag)) + Utf16Length(" :: " + rest)
  {
    var payloadStr := PayloadText(stringify(e.payload));
    var lead := e.createdAt + " :: " + e.commandId + " :: " + e.aggregateId + " :: ";
    PaddedLine(lead, e.tag, TagWidth, " :: " + (e.id + " => " + payloadStr))
  }

  /** ShowDomainEvent's contract is a complete specification: the only line
      with the leading columns and tag in front, spaces after the tag, the id
      and payload text at the end, and the promised length, is the rendered
      one. */
  lemma ShowDomainEventDetermined<P>(e: DomainEvent<P>, stringify: P -> Stringified, r: string)
    requires var lead := e.createdAt + " :: " + e.commandId + " :: " + e.aggregateId + " :: ";
      var rest := e.id + " => " + PayloadText(stringify(e.payload));
      Framed(r, lead + e.tag, " :: " + rest)
      && Utf16Length(r) == Utf16Length(lead) + Max(TagWidth, Utf16Length(e.tag)) + Utf16Length(" :: " + rest)
    ensures r == ShowDomainEvent(e, stringify)
  {
    var lead := e.createdAt + " :: " + e.commandId + " :: " + e.aggregateId + " :: ";
    var rest := e.id + " => " + PayloadText(stringify(e.payload));
    FramedUnique(r, ShowDomainEvent(e, stringify), lead + e.tag, " :: " + rest);
  }

  /** The rendered line as one padded column between the aggregate id and
      the event id, in the form the column lemma takes. */
  lemma ShowDomainEventLine<P>(e: DomainEvent<P>, stringify: P -> Stringified)
    ensures ShowDomainEvent(e, stringify)
         == PaddedLine(e.createdAt + " :: " + e.commandId + " :: " + e.aggregateId + " :: ", e.tag, TagWidth,
                       " :: " + (e.id + " => " + PayloadText(stringify(e.payload))))
  {
  }

  /** Rendering never fails: a payload `JSON.stringify` throws on is shown
      as the placeholder at the end of the line. */
  lemma ShowDomainEventUnserializable<P>(e: DomainEvent<P>, stringify: P -> Stringified)
    requires stringify(e.payload).Throws?
    ensures EndsWith(ShowDomainEvent(e, stringify), Unserializable)
  {
    ShowDomainEventLine(e, stringify);
  }

  /** Columns line up: for every tag that fits the column, the event id
      starts 20 code units after the aggregate id column ends. */
  lemma ShowDomainEventIdColumn<P>(e: DomainEvent<P>, stringify: P -> Stringified)
    requires Utf16Length(e.tag) <= TagWidth
    ensures ColumnAt(ShowDomainEvent(e, stringify), e.id + " => " + PayloadText(stringify(e.payload)),
                     Utf16Length(e.createdAt + " :: " + e.commandId + " :: " + e.aggregateId) + 20)
  {
    var rest := e.id + " => " + PayloadText(stringify(e.payload));
    var lead := e.createdAt + " :: " + e.commandId + " :: " + e.aggregateId;
    ShowDomainEventLine(e, stringify);
    NextColumnOffset(lead, e.tag, TagWidth, rest);
  }

  /** `domainEventToJSON(e)`: exactly the properties `_tag`, `id`,
      `commandId`, `aggregateId`, `createdAt` and `payload`, in that order;
      each reads back as the event's own, the payload as the raw value. */
  function DomainEventToJSON<P>(e: DomainEvent<P>): (r: Record<P>)
    ensures Keys(r) == ["_tag", "id", "commandId", "aggregateId", "createdAt", "payload"]
    ensures Get(r, "_tag") == Some(Str(e.tag))
    ensures Get(r, "id") == Some(Str(e.id))
    ensures Get(r, "commandId") == Some(Str(e.commandId))
    ensures Get(r, "aggregateId") == Some(Str(e.aggregateId))
    ensures Get(r, "createdAt") == Some(Str(e.createdAt))
    ensures Get(r, "payload") == Some(Raw(e.payload))
  {
    var r := [Field("_tag", Str(e.tag)), Field("id", Str(e.id)),
              Field("commandId", Str(e.commandId)), Field("aggregateId", Str(e.aggregateId)),
              Field("createdAt", Str(e.createdAt)), Field("payload", Raw(e.payload))];
    GetStored(r, 0);
    GetStored(r, 1);
    GetStored(r, 2);
    GetStored(r, 3);
    GetStored(r, 4);
    GetStored(r, 5);
    r
  }

  /** How a call of a JavaScript function ends: with a value, or by throwing. */
  datatype Outcome<R> = Returned(value: R) | Threw(error: JsError)

  const UnhandledPrefix := "Unhandled domain event tag: "

  /** `matchDomainEvent(e, cases, onDefault)`: the handler registered for the
      event's tag decides and the default is not consulted; without one the
      default decides; without either the call throws an Error naming the tag. */
  function MatchDomainEvent<P, R>(
    e: DomainEvent<P>,
    cases: map<string, DomainEvent<P> -> R>,
    onDefault: Option<DomainEvent<P> -> R>)
    : (r: Outcome<R>)
    ensures e.tag in cases ==> r == Returned(cases[e.tag](e))
    ensures e.tag !in cases && onDefault.Some? ==> r == Returned(onDefault.value(e))
    ensures r.Threw? <==> e.tag !in cases && onDefault.None?
    ensures r.Threw? ==> r.error.message == UnhandledPrefix + e.tag
  {
    if e.tag in cases then
      Returned(cases[e.tag](e))
    else if onDefault.Some? then
      Returned(onDefault.value(e))
    else
      Threw(JsError(UnhandledPrefix + e.tag))
  }

  /** The default is consulted only for tags without a handler. */
  lemma MatchIgnoresDefaultWhenHandled<P, R>(
    e: DomainEvent<P>,
    cases: map<string, DomainEvent<P> -> R>,
    d1: Option<DomainEvent<P> -> R>,
    d2: Option<DomainEvent<P> -> R>)
    requires e.tag in cases
    ensures MatchDomainEvent(e, cases, d1) == MatchDomainEvent(e, cases, d2)
  {
  }

  /** Open dispatch: registering a handler for another tag changes nothing
      for this event. */
  lemma MatchOtherTagsIrrelevant<P, R>(
    e: DomainEvent<P>,
    cases: map<string, DomainEvent<P> -> R>,
    onDefault: Option<DomainEvent<P> -> R>,
    t: string,
    h: DomainEvent<P> -> R)
    requires t != e.tag
    ensures MatchDomainEvent(e, cases[t := h], onDefault) == MatchDomainEvent(e, cases, onDefault)
  {
  }

  /** The error of an unhandled event identifies it: the tag is exactly what
      follows the fixed prefix of the message. */
  lemma UnhandledMessageNamesTag<P, R>(
    e: DomainEvent<P>,
    cases: map<string, DomainEvent<P> -> R>,
    onDefault: Option<DomainEvent<P> -> R>)
    requires MatchDomainEvent(e, cases, onDefault).Threw?
    ensures var m := MatchDomainEvent(e, cases, onDefault).error.message;
      |UnhandledPrefix| <= |m| && m[..|UnhandledPrefix|] == UnhandledPrefix
      && m[|UnhandledPrefix|..] == e.tag
  {
  }

  /** Dispatch on an event tagged "X": the "X" handler answers; with an
      empty map the default answers; with neither the call throws an Error
      whose message names "X". */
  lemma MatchExamples(cid: string, aid: string, id: string, now: string)
    ensures var e := MkDomainEvent("X", cid, aid, 0, id, now);
      var one := (ev: DomainEvent<int>) => 1;
      var two := (ev: DomainEvent<int>) => 2;
      MatchDomainEvent(e, map["X" := one, "Y" := two], Some(two)) == Returned(1)
      && MatchDomainEvent(e, map["Y" := one], Some(two)) == Returned(2)
      && MatchDomainEvent(e, map["Y" := one], None) == Threw(JsError("Unhandled domain event tag: X"))
  {
  }
}
