/** The Command envelope: an intent to change state, created by a sender
    before the operation runs. The id generator and the clock are the
    caller's: `id` stands for the `nanoid()` result and `now` for the ISO-8601
    text of the construction time. */
module Commands {
  import opened Wrappers
  import opened Builtins
  import opened Json

  /** A constructed Command; every field is read-only. `createdAt` holds the
      `toISOString()` text of the captured date. */
  datatype Command<P> = Command(tag: string, id: string, createdAt: string, payload: P) {

    /** `command.is(t)`: exact, case-sensitive comparison with the tag. */
    predicate Is(t: string) {
      tag == t
    }
  }

  /** `mkCommand(tag, payload)`, i.e. `new Command(tag, payload)`, with the
      fresh id and the current time supplied. */
  function MkCommand<P>(tag: string, payload: P, id: string, now: string): (c: Command<P>)
    ensures c.tag == tag && c.payload == payload
    ensures c.id == id && c.createdAt == now
  {
    Command(tag, id, now, payload)
  }

  /** A command answers `is` for its own tag and for no other. */
  lemma MkCommandIs<P>(tag: string, payload: P, id: string, now: string, t: string)
    ensures MkCommand(tag, payload, id, now).Is(t) <==> t == tag
  {
  }

  /** `showCommand(c)`, where `stringify` is `JSON.stringify` on payloads. The
      line shows the timestamp and the whole tag, then spaces only, then the
      id and the payload text; the tag column is max(12, tag length) UTF-16
      code units wide. */
  function ShowCommand<P>(c: Command<P>, stringify: P -> Stringified): (r: string)
    ensures var rest := c.id + " => " + PayloadText(stringify(c.payload));
      Framed(r, c.createdAt + " :: " + c.tag, " :: " + rest)
      && Utf16Length(r) == Utf16Length(c.createdAt + " :: ") + Max(TagWidth, Utf16Length(c.tag))
                           + Utf16Length(" :: " + rest)
  {
    var payloadStr := PayloadText(stringify(c.payload));
    PaddedLine(c.createdAt + " :: ", c.tag, TagWidth, " :: " + (c.id + " => " + payloadStr))
  }

  /** ShowCommand's contract is a complete specification: the only line
      with the timestamp and tag in front, spaces after the tag, the id and
      payload text at the end, and the promised length, is the rendered one. */
  lemma ShowCommandDetermined<P>(c: Command<P>, stringify: P -> Stringified, r: string)
    requires var rest := c.id + " => " + PayloadText(stringify(c.payload));
      Framed(r, c.createdAt + " :: " + c.tag, " :: " + rest)
      && Utf16Length(r) == Utf16Length(c.createdAt + " :: ") + Max(TagWidth, Utf16Length(c.tag))
                           + Utf16Length(" :: " + rest)
    ensures r == ShowCommand(c, stringify)
  {
    var rest := c.id + " => " + PayloadText(stringify(c.payload));
    FramedUnique(r, ShowCommand(c, stringify), c.createdAt + " :: " + c.tag, " :: " + rest);
  }

  /** The rendered line as one padded column between the timestamp and the
      id, in the form the column lemma takes. */
  lemma ShowCommandLine<P>(c: Command<P>, stringify: P -> Stringified)
    ensures ShowCommand(c, stringify)
         == PaddedLine(c.createdAt + " :: ", c.tag, TagWidth,
                       " :: " + (c.id + " => " + PayloadText(stringify(c.payload))))
  {
  }

  /** Rendering never fails: a payload `JSON.stringify` throws on is shown
      as the placeholder at the end of the line. */
  lemma ShowCommandUnserializable<P>(c: Command<P>, stringify: P -> Stringified)
    requires stringify(c.payload).Throws?
    ensures EndsWith(ShowCommand(c, stringify), Unserializable)
  {
    ShowCommandLine(c, stringify);
  }

  /** Columns line up: for every tag that fits the column, the id starts
      20 code units after the timestamp. */
  lemma ShowCommandIdColumn<P>(c: Command<P>, stringify: P -> Stringified)
    requires Utf16Length(c.tag) <= TagWidth
    ensures ColumnAt(ShowCommand(c, stringify), c.id + " => " + PayloadText(stringify(c.payload)),
                     Utf16Length(c.createdAt) + 20)
  {
    var rest := c.id + " => " + PayloadText(stringify(c.payload));
    ShowCommandLine(c, stringify);
    NextColumnOffset(c.createdAt, c.tag, TagWidth, rest);
  }

  /** `cmdToJSON(c)`: exactly the properties `_tag`, `id`, `createdAt` and
      `payload`, in that order; each reads back as the command's own, and
      the payload is the raw value, not its JSON text. */
  function CmdToJSON<P>(c: Command<P>): (r: Record<P>)
    ensures Keys(r) == ["_tag", "id", "createdAt", "payload"]
    ensures Get(r, "_tag") == Some(Str(c.tag))
    ensures Get(r, "id") == Some(Str(c.id))
    ensures Get(r, "createdAt") == Some(Str(c.createdAt))
    ensures Get(r, "payload") == Some(Raw(c.payload))
  {
    var r := [Field("_tag", Str(c.tag)), Field("id", Str(c.id)),
              Field("createdAt", Str(c.createdAt)), Field("payload", Raw(c.payload))];
    GetStored(r, 0);
    GetStored(r, 1);
    GetStored(r, 2);
    GetStored(r, 3);
    r
  }
}
