/** The callback payload carried by a "Download" button: written as
    `download_${movie.id}` (index.js:139) and read back with
    `query.data.split('_')[1]` (index.js:154). */
module Payload {
  import opened Wrappers
  import opened Text

  const Tag := "download"
  const Delimiter := '_'

  /** The button payload for a catalog item id. */
  function Encode(id: string): (data: string)
    ensures StartsWith(data, Tag + [Delimiter])
    ensures data[|Tag| + 1..] == id
    ensures |data| == |Tag| + 1 + |id|
  {
    Tag + [Delimiter] + id
  }

  /** The second `_`-separated piece of the payload, or `None` when the
      payload has no `_` (JavaScript indexes past the end of the array and
      gets `undefined`). The tag before the first `_` is never checked. */
  function Decode(data: string): (id: Option<string>)
    ensures id.None? <==> Delimiter !in data
    ensures id.Some? ==> Delimiter !in id.value
  {
    var pieces := Split(data, Delimiter);
    if |pieces| >= 2 then Some(pieces[1]) else None
  }

  /** The text the handler places in the download request for a decoded id:
      the id itself, or the word `undefined` that a template literal makes of
      a missing one. */
  function RequestId(id: Option<string>): (text: string)
    ensures id.Some? ==> text == id.value
    ensures id.None? ==> text == "undefined"
  {
    match id
    case Some(s) => s
    case None => "undefined"
  }

  /** What decoding a payload built from `id` recovers: the part of `id`
      before its first `_`, which is all of `id` exactly when `id` has no
      `_` in it. */
  lemma {:induction false} DecodeEncode(id: string)
    ensures Decode(Encode(id)) == Some(Split(id, Delimiter)[0])
    ensures Decode(Encode(id)) == Some(id) <==> Delimiter !in id
    ensures StartsWith(id, Split(id, Delimiter)[0])
  {
    SplitAfter(Tag, Delimiter, id);
    assert Encode(id) == Tag + [Delimiter] + id;
    var pieces := Split(id, Delimiter);
    if |pieces| > 1 {
      assert id == pieces[0] + [Delimiter] + Join(pieces[1..], [Delimiter]);
      assert |pieces[0]| < |id|;
    }
    assert id[..|pieces[0]|] == pieces[0];
  }

  /** The round trip the bot relies on: ids without `_` come back intact. */
  lemma RoundTrip(id: string)
    requires Delimiter !in id
    ensures Decode(Encode(id)) == Some(id)
    ensures RequestId(Decode(Encode(id))) == id
  {
    DecodeEncode(id);
  }

  /** Any tag is accepted: a payload with some other `_`-free tag decodes to
      the same id as the `download_` payload. */
  lemma {:induction false} TagIgnored(tag: string, id: string)
    requires Delimiter !in tag
    ensures Decode(tag + [Delimiter] + id) == Decode(Encode(id))
  {
    SplitAfter(tag, Delimiter, id);
    SplitAfter(Tag, Delimiter, id);
  }

  /** A payload with no `_` at all makes the handler ask for the id
      `undefined`. */
  lemma NoDelimiterAsksForUndefined(data: string)
    requires Delimiter !in data
    ensures RequestId(Decode(data)) == "undefined"
  {
  }
}
