/** The part of a Rack request the adapter touches: its identity and its
    body stream (`rack.input`), which may have been read before and may or
    may not answer to `rewind`. */
module RackRequest {
  import opened Ruby

  /** The state of a body stream: its whole content, the read position, and
      whether the stream responds to `rewind`. */
  datatype Stream = Stream(content: string, pos: nat, rewindable: bool)

  /** `rewind`: back to the start, content untouched. */
  function Rewound(st: Stream): (r: Stream)
    ensures r.pos == 0
    ensures r.content == st.content && r.rewindable == st.rewindable
  {
    st.(pos := 0)
  }

  /** `read` with no length: everything from the position to the end, or ""
      when the position is already at or past the end; the position then
      stands at (or stays past) the end. */
  function ReadRest(st: Stream): (r: (string, Stream))
    ensures r.1.content == st.content && r.1.rewindable == st.rewindable
    ensures r.1.pos >= |st.content|
    ensures st.pos < |st.content| ==> r.1.pos == |st.content|
    ensures st.pos <= |st.content| ==> st.content == st.content[..st.pos] + r.0
    ensures st.pos >= |st.content| ==> r.0 == "" && r.1 == st
  {
    if st.pos < |st.content| then (st.content[st.pos..], st.(pos := |st.content|))
    else ("", st)
  }

  /** Reading after a rewind yields the whole body. */
  lemma RewoundReadIsWholeBody(st: Stream)
    ensures ReadRest(Rewound(st)).0 == st.content
  {
  }

  /** A body that was already read once yields "" on a second read; this is
      why the adapter rewinds before reading. */
  lemma SecondReadIsEmpty(st: Stream)
    ensures ReadRest(ReadRest(st).1).0 == ""
  {
  }

  /** Where a collaborator that was handed the request (the predicate, the
      builder or the transport) leaves the body: at position p when it moved
      it there, where it was when it did not touch it. Content and
      rewindability never change. */
  function MovedTo(body: Option<Stream>, p: Option<nat>): (r: Option<Stream>)
    ensures r.Some? <==> body.Some?
    ensures r.Some? ==> r.value.content == body.value.content && r.value.rewindable == body.value.rewindable
    ensures r.Some? ==> r.value.pos == if p.Some? then p.value else body.value.pos
  {
    if body.None? || p.None? then body else Some(body.value.(pos := p.value))
  }

  /** The body stream object. */
  class BodyStream {
    const content: string
    const rewindable: bool
    var pos: nat

    function State(): (st: Stream)
      reads this
    {
      Stream(content, pos, rewindable)
    }

    constructor (content: string, pos: nat, rewindable: bool)
      ensures State() == Stream(content, pos, rewindable)
    {
      this.content := content;
      this.pos := pos;
      this.rewindable := rewindable;
    }

    /** Only a stream that responds to `rewind` is ever sent it. */
    method Rewind()
      requires rewindable
      modifies this
      ensures State() == Rewound(old(State()))
    {
      pos := 0;
    }

    /** The position a collaborator's own reads (the predicate's, the
        builder's or the transport's) leave the stream at. */
    method MoveTo(p: nat)
      modifies this
      ensures State() == old(State()).(pos := p)
    {
      pos := p;
    }

    method Read() returns (data: string)
      modifies this
      ensures (data, State()) == ReadRest(old(State()))
    {
      if pos < |content| {
        data := content[pos..];
        pos := |content|;
      } else {
        data := "";
      }
    }
  }

  /** The view of a possibly absent body stream. */
  function BodyView(b: BodyStream?): (r: Option<Stream>)
    reads b
  {
    if b == null then None else Some(b.State())
  }

  /** A `Rack::Request`: opaque apart from its body, which Rack leaves `nil`
      when the environment carries no input stream. */
  class Request {
    const id: ObjectId
    const body: BodyStream?

    constructor (id: ObjectId, body: BodyStream?)
      ensures this.id == id && this.body == body
    {
      this.id := id;
      this.body := body;
    }
  }
}
