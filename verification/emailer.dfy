/** Outgoing e-mail: composing a message, fanning a notification out to many
  * recipients through Bcc headers in groups of at most 32, and the verb a
  * resolution notification uses. SMTP delivery itself is not modelled; a
  * "send" is the composed message. */
module Emailer {
  import opened Wrappers
  import opened Text
  import opened Messages

  const BCC_CHUNK_SIZE: nat := 32
  const REPLY_TO := "contact@biatob.com"

  datatype Message = Message(headers: seq<(string, string)>, body: string)

  predicate NamesHeader(headers: seq<(string, string)>, name: string) {
    exists i :: 0 <= i < |headers| && headers[i].0 == name
  }

  predicate HasHeader(m: Message, name: string) {
    NamesHeader(m.headers, name)
  }

  /** A header list names `name` exactly when one of its two parts does. */
  lemma NamesHeaderConcat(a: seq<(string, string)>, b: seq<(string, string)>, name: string)
    ensures NamesHeader(a + b, name) <==> NamesHeader(a, name) || NamesHeader(b, name)
  {
    if NamesHeader(a + b, name) {
      var i :| 0 <= i < |a + b| && (a + b)[i].0 == name;
      if i >= |a| {
        assert b[i - |a|].0 == name;
      }
    }
    if NamesHeader(a, name) {
      var i :| 0 <= i < |a| && a[i].0 == name;
      assert (a + b)[i].0 == name;
    }
    if NamesHeader(b, name) {
      var i :| 0 <= i < |b| && b[i].0 == name;
      assert (a + b)[|a| + i].0 == name;
    }
  }

  /** The message `_send` hands to SMTP: From, To only when a recipient is
    * given, Subject, Reply-To, then the extra headers in order. */
  function Compose(fromAddr: string, to: Option<string>, subject: string, body: string,
                   extra: seq<(string, string)>): (m: Message)
    ensures m.body == body
    ensures |m.headers| >= 3 + |extra| && m.headers[0] == ("From", fromAddr)
    ensures HasHeader(m, "To") <==> (to.Some? && to.value != "") || NamesHeader(extra, "To")
    ensures ("Reply-To", REPLY_TO) in m.headers && ("Subject", subject) in m.headers
    ensures m.headers[|m.headers| - |extra|..] == extra
  {
    var toHeader := if to.Some? && to.value != "" then [("To", to.value)] else [];
    var front := [("From", fromAddr)] + toHeader + [("Subject", subject), ("Reply-To", REPLY_TO)];
    assert NamesHeader(front, "To") <==> toHeader != [] by {
      assert |"From"| == 4 && |"Subject"| == 7 && |"Reply-To"| == 8 && |"To"| == 2;
      if toHeader != [] {
        assert front[1].0 == "To";
      } else {
        assert forall i :: 0 <= i < |front| ==> front[i].0 != "To";
      }
    }
    NamesHeaderConcat(front, extra, "To");
    assert (front + extra)[|front|..] == extra;
    Message(front + extra, body)
  }

  // ---------------------------------------------------------------------
  // Deduplication and chunking.

  predicate NoDuplicates<T(==)>(s: seq<T>) {
    forall i, j :: 0 <= i < j < |s| ==> s[i] != s[j]
  }

  /** `d` lists every address of `xs` exactly once, in some order. */
  predicate IsDedupOf<T(==)>(d: seq<T>, xs: seq<T>) {
    NoDuplicates(d) && (set x | x in d) == (set x | x in xs)
  }

  /** `list(set(xs))`. The model keeps first occurrences; the contract
    * promises no particular order. */
  method Dedup<T(==)>(xs: seq<T>) returns (d: seq<T>)
    ensures IsDedupOf(d, xs)
  {
    d := [];
    var i := 0;
    while i < |xs|
      invariant 0 <= i <= |xs|
      invariant NoDuplicates(d)
      invariant forall x :: x in d <==> x in xs[..i]
    {
      if xs[i] !in d {
        d := d + [xs[i]];
      }
      assert xs[..i + 1] == xs[..i] + [xs[i]];
      i := i + 1;
    }
    assert xs[..i] == xs;
    assert (set x | x in d) == (set x | x in xs);
  }

  /** Reference definition of chunking: split off the first 32 items until
    * none are left. */
  function Chunks<T>(xs: seq<T>): (cs: seq<seq<T>>)
    decreases |xs|
  {
    if |xs| == 0 then []
    else if |xs| <= BCC_CHUNK_SIZE then [xs]
    else [xs[..BCC_CHUNK_SIZE]] + Chunks(xs[BCC_CHUNK_SIZE..])
  }

  function Min(a: int, b: int): int {
    if a <= b then a else b
  }

  function Flatten<T>(cs: seq<seq<T>>): seq<T> {
    if cs == [] then [] else cs[0] + Flatten(cs[1..])
  }

  /** There are ceil(|xs| / 32) chunks, and chunk `i` is the slice starting
    * at `32 * i`, as the sender's loop cuts it. */
  lemma {:induction false} ChunkAt<T>(xs: seq<T>)
    ensures |Chunks(xs)| == (|xs| + 31) / 32
    ensures forall i :: 0 <= i < |Chunks(xs)| ==>
      (32 * i < |xs| && Chunks(xs)[i] == xs[32 * i .. Min(32 * i + 32, |xs|)])
    decreases |xs|
  {
    var cs := Chunks(xs);
    if |xs| > 32 {
      var rest := xs[32..];
      ChunkAt(rest);
      forall i | 0 <= i < |cs|
        ensures 32 * i < |xs| && cs[i] == xs[32 * i .. Min(32 * i + 32, |xs|)]
      {
        if i > 0 {
          var j := i - 1;
          assert cs[i] == Chunks(rest)[j];
          assert Chunks(rest)[j] == rest[32 * j .. Min(32 * j + 32, |rest|)];
          assert 32 * i == 32 * j + 32 && Min(32 * i + 32, |xs|) == Min(32 * j + 32, |rest|) + 32;
          assert rest[32 * j .. Min(32 * j + 32, |rest|)] == xs[32 * i .. Min(32 * i + 32, |xs|)];
        } else {
          assert cs[0] == xs[..32];
        }
      }
    }
  }

  /** Concatenating the chunks gives back the list. */
  lemma {:induction false} FlattenChunks<T>(xs: seq<T>)
    ensures Flatten(Chunks(xs)) == xs
    decreases |xs|
  {
    if |xs| > 32 {
      FlattenChunks(xs[32..]);
      assert Chunks(xs)[1..] == Chunks(xs[32..]);
    }
  }

  /** Every chunk is non-empty and holds at most 32 items. */
  lemma ChunkSizes<T>(xs: seq<T>)
    ensures forall c :: c in Chunks(xs) ==> 0 < |c| <= BCC_CHUNK_SIZE
  {
    ChunkAt(xs);
  }

  /** Item `p` of chunk `a` is item `32 * a + p` of the list. */
  lemma ChunkElement<T>(xs: seq<T>, a: nat, p: nat)
    requires a < |Chunks(xs)| && p < |Chunks(xs)[a]|
    ensures 32 * a + p < |xs| && Chunks(xs)[a][p] == xs[32 * a + p]
  {
    ChunkAt(xs);
  }

  /** Without duplicates, an item lies in exactly one chunk. */
  lemma ExactlyOneChunk<T>(xs: seq<T>, x: T)
    requires NoDuplicates(xs) && x in xs
    ensures exists i :: 0 <= i < |Chunks(xs)| && x in Chunks(xs)[i]
    ensures forall i, j ::
      (0 <= i < |Chunks(xs)| && 0 <= j < |Chunks(xs)| && x in Chunks(xs)[i] && x in Chunks(xs)[j])
      ==> i == j
  {
    var cs := Chunks(xs);
    ChunkAt(xs);
    var k :| 0 <= k < |xs| && xs[k] == x;
    var i := k / 32;
    assert 32 * i <= k < 32 * i + 32;
    assert i < |cs|;
    assert cs[i] == xs[32 * i .. Min(32 * i + 32, |xs|)];
    assert cs[i][k - 32 * i] == x;
    forall a, b | 0 <= a < |cs| && 0 <= b < |cs| && x in cs[a] && x in cs[b]
      ensures a == b
    {
      var p :| 0 <= p < |cs[a]| && cs[a][p] == x;
      var q :| 0 <= q < |cs[b]| && cs[b][q] == x;
      ChunkElement(xs, a, p);
      ChunkElement(xs, b, q);
      assert 32 * a + p == 32 * b + q;
      assert p < 32 && q < 32;
    }
  }

  /** The message sent for one chunk of Bcc recipients. */
  function BccSend(fromAddr: string, chunk: seq<string>, subject: string, body: string): Message {
    Compose(fromAddr, None, subject, body, [("Bcc", Join(chunk, ", "))])
  }

  function BccSends(fromAddr: string, chunks: seq<seq<string>>, subject: string, body: string): (ms: seq<Message>)
    ensures |ms| == |chunks|
  {
    seq(|chunks|, i requires 0 <= i < |chunks| => BccSend(fromAddr, chunks[i], subject, body))
  }

  /** Each chunked send has no To header and names its chunk in Bcc. */
  lemma BccSendHeaders(fromAddr: string, chunk: seq<string>, subject: string, body: string)
    ensures !HasHeader(BccSend(fromAddr, chunk, subject, body), "To")
    ensures ("Bcc", Join(chunk, ", ")) in BccSend(fromAddr, chunk, subject, body).headers
  {
  }

  lemma BccSendsAppend(fromAddr: string, chunks: seq<seq<string>>, chunk: seq<string>, subject: string, body: string)
    ensures BccSends(fromAddr, chunks + [chunk], subject, body)
         == BccSends(fromAddr, chunks, subject, body) + [BccSend(fromAddr, chunk, subject, body)]
  {
  }

  /** `_send_bccs`: deduplicates the recipients and sends one message per
    * slice of 32 of them. */
  method SendBccs(fromAddr: string, bccs: seq<string>, subject: string, body: string)
    returns (sent: seq<Message>)
    ensures exists d :: IsDedupOf(d, bccs) && sent == BccSends(fromAddr, Chunks(d), subject, body)
  {
    var d := Dedup(bccs);
    sent := [];
    ghost var chunks: seq<seq<string>> := [];
    var i := 0;
    while i < |d|
      invariant i == BCC_CHUNK_SIZE * |chunks|
      invariant |chunks| == 0 || i - BCC_CHUNK_SIZE < |d|
      invariant forall j :: 0 <= j < |chunks| ==> j * 32 < |d| && chunks[j] == d[j * 32 .. Min(j * 32 + 32, |d|)]
      invariant sent == BccSends(fromAddr, chunks, subject, body)
    {
      var chunk := d[i .. Min(i + 32, |d|)];
      BccSendsAppend(fromAddr, chunks, chunk, subject, body);
      sent := sent + [BccSend(fromAddr, chunk, subject, body)];
      chunks := chunks + [chunk];
      i := i + 32;
    }
    ChunkAt(d);
    assert |chunks| == (|d| + 31) / 32;
    assert chunks == Chunks(d);
  }

  // ---------------------------------------------------------------------

  /** How a resolution notification describes the outcome. */
  function ResolutionVerb(resolution: ResolutionValue): (verb: string)
    ensures resolution == Known(ResolutionYes) ==> verb == "came true"
    ensures resolution == Known(ResolutionNo) ==> verb == "did not come true"
    ensures resolution == Known(ResolutionInvalid) ==> verb == "resolved INVALID"
    ensures resolution !in {Known(ResolutionYes), Known(ResolutionNo), Known(ResolutionInvalid)} ==> verb == "UN-resolved"
  {
    if resolution == Known(ResolutionYes) then "came true"
    else if resolution == Known(ResolutionNo) then "did not come true"
    else if resolution == Known(ResolutionInvalid) then "resolved INVALID"
    else "UN-resolved"
  }

  /** The verb tells the three final outcomes apart from each other and from
    * an un-resolution. */
  lemma ResolutionVerbDistinguishes(a: ResolutionValue, b: ResolutionValue)
    requires ResolutionVerb(a) == ResolutionVerb(b)
    ensures a == b || (ResolutionVerb(a) == "UN-resolved" && ResolutionVerb(b) == "UN-resolved")
  {
    assert |"came true"| == 9 && |"did not come true"| == 17;
    assert |"resolved INVALID"| == 16 && |"UN-resolved"| == 11;
  }

  // ---------------------------------------------------------------------
  // Calling the notifier.

  /** The parameters of `send_resolution_notifications`, none of which has a
    * default. */
  const RESOLUTION_NOTIFICATION_PARAMETERS: set<string> := {"bccs", "prediction_id", "prediction_text", "resolution"}

  /** Binding a call made only with keyword arguments to a coroutine function
    * whose parameters have no defaults. Python checks this when the call is
    * made, before any coroutine exists: an unexpected keyword raises
    * TypeError, and so does a parameter left without a value. */
  function BindKeywords(keywords: set<string>, parameters: set<string>): (e: Option<PyException>)
    ensures e.None? <==> keywords == parameters
    ensures e.Some? ==> e.value == TypeError
  {
    if !(keywords <= parameters) then Some(TypeError)
    else if !(parameters <= keywords) then Some(TypeError)
    else None
  }
}
