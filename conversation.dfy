/** The conversation history the client accumulates and sends with every
    question, and the agent formats into its prompt. */
module Conversation {

  /** One history entry, `{role, content}` on the wire. */
  datatype Message = Message(role: string, content: string)

  const UserRole: string := "user"
  const AssistantRole: string := "assistant"

  /** A history made of whole exchanges: a user entry, then an assistant
      entry, repeated. */
  predicate Paired(h: seq<Message>) {
    h == [] ||
    (|h| >= 2 && Paired(h[..|h| - 2]) &&
     h[|h| - 2].role == UserRole && h[|h| - 1].role == AssistantRole)
  }

  /** A paired history has even length and alternates roles, user first. */
  lemma {:induction false} PairedRoles(h: seq<Message>)
    requires Paired(h)
    ensures |h| % 2 == 0
    ensures forall i :: 0 <= i < |h| ==> h[i].role == (if i % 2 == 0 then UserRole else AssistantRole)
  {
    if h != [] {
      var p := h[..|h| - 2];
      PairedRoles(p);
      assert forall i :: 0 <= i < |p| ==> h[i] == p[i];
    }
  }

  /** One completed question/answer exchange. */
  datatype Exchange = Exchange(question: string, answer: string)

  /** The two history entries one exchange contributes. */
  function Entries(x: Exchange): seq<Message> {
    [Message(UserRole, x.question), Message(AssistantRole, x.answer)]
  }

  /** The history a list of exchanges, oldest first, flattens to. */
  function Transcript(xs: seq<Exchange>): seq<Message> {
    if xs == [] then [] else Transcript(xs[..|xs| - 1]) + Entries(xs[|xs| - 1])
  }

  /** The exchanges an even-length history is read back as. */
  function Exchanges(h: seq<Message>): seq<Exchange>
    requires |h| % 2 == 0
  {
    if h == [] then []
    else Exchanges(h[..|h| - 2]) + [Exchange(h[|h| - 2].content, h[|h| - 1].content)]
  }

  /** Appending one exchange keeps a history paired and keeps the old
      history as a prefix. */
  lemma PairedExtend(h: seq<Message>, x: Exchange)
    requires Paired(h)
    ensures Paired(h + Entries(x))
    ensures (h + Entries(x))[..|h|] == h
  {
    assert (h + Entries(x))[..|h|] == h;
  }

  /** Every transcript is paired, two entries per exchange. */
  lemma {:induction false} TranscriptPaired(xs: seq<Exchange>)
    ensures Paired(Transcript(xs))
    ensures |Transcript(xs)| == 2 * |xs|
  {
    if xs != [] {
      TranscriptPaired(xs[..|xs| - 1]);
      PairedExtend(Transcript(xs[..|xs| - 1]), xs[|xs| - 1]);
    }
  }

  /** Every paired history is the transcript of its exchanges: pairing is
      exactly "built from whole exchanges". */
  lemma {:induction false} PairedIsTranscript(h: seq<Message>)
    requires Paired(h)
    ensures |h| % 2 == 0
    ensures Transcript(Exchanges(h)) == h
    decreases |h|
  {
    if h != [] {
      var n := |h|;
      var p := h[..n - 2];
      PairedIsTranscript(p);
      var last := Exchange(h[n - 2].content, h[n - 1].content);
      var xs := Exchanges(h);
      assert xs == Exchanges(p) + [last];
      assert xs[..|xs| - 1] == Exchanges(p);
      assert Entries(last) == [h[n - 2], h[n - 1]];
      assert h == p + [h[n - 2], h[n - 1]];
    }
  }
}
