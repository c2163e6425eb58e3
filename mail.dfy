/**
 * The mail-fetch step of app.py (`fetch_emails`): for every listed message,
 * look up its first `Subject` and `From` headers, format one summary line,
 * and skip any message whose fetch failed.
 */
module Mail {
  import opened Wrappers
  import opened Text

  /** One entry of a message's `payload.headers` list. */
  datatype Header = Header(name: string, value: string)

  /**
   * The detail of one fetched message: its `payload.headers` list (None when
   * the response has no such list) and its `snippet` (None when absent).
   */
  datatype Message = Message(headers: Option<seq<Header>>, snippet: Option<string>)

  /** The outcome of the per-message `get(...).execute()` call. */
  datatype Fetch = Fetched(message: Message) | FetchFailed

  /**
   * `next((h['value'] for h in headers if h['name'] == name), default)`:
   * the value of the first header called `name`, or `default` when there is none.
   */
  function HeaderValue(headers: seq<Header>, name: string, default: string): (r: string)
    ensures (forall i :: 0 <= i < |headers| ==> headers[i].name != name) ==> r == default
    ensures forall i :: 0 <= i < |headers| && headers[i].name == name
                        && (forall j :: 0 <= j < i ==> headers[j].name != name)
                        ==> r == headers[i].value
  {
    if headers == [] then default
    else if headers[0].name == name then headers[0].value
    else HeaderValue(headers[1..], name, default)
  }

  /** The line `From: <sender> | Subject: <subject> | Body: <snippet>`. */
  function SummaryLine(sender: string, subject: string, snippet: string): string
  {
    Format(["From: ", " | Subject: ", " | Body: ", ""], [sender, subject, snippet])
  }

  /**
   * The summary of one fetched message, or None when reading
   * `txt['payload']['headers']` raises and the message is skipped.
   */
  function Summarize(m: Message): (r: Option<string>)
    ensures r.None? <==> m.headers.None?
  {
    match m.headers
    case None => None
    case Some(hs) =>
      var subject := HeaderValue(hs, "Subject", "No Subject");
      var sender := HeaderValue(hs, "From", "Unknown");
      var snippet := m.snippet.GetOr("");
      Some(SummaryLine(sender, subject, snippet))
  }

  /** What the loop body contributes for one message: a line, or nothing when it raised. */
  function Outcome(f: Fetch): Option<string>
  {
    match f
    case FetchFailed => None
    case Fetched(m) => Summarize(m)
  }

  /** The lines the loop has appended after visiting `fs`, in order. */
  function Collected(fs: seq<Fetch>): seq<string>
  {
    if fs == [] then []
    else
      var init := Collected(fs[..|fs| - 1]);
      match Outcome(fs[|fs| - 1])
      case Some(line) => init + [line]
      case None => init
  }

  /** The number of messages whose loop body raised. */
  function Skipped(fs: seq<Fetch>): nat
  {
    if fs == [] then 0
    else Skipped(fs[..|fs| - 1]) + (if Outcome(fs[|fs| - 1]).None? then 1 else 0)
  }

  /**
   * `fetch_emails`: `listed` stands for the `messages` list of the list call
   * (None when the response has no `messages` key), each entry already
   * paired with the outcome of its `get` call.
   */
  method FetchEmails(listed: Option<seq<Fetch>>) returns (emailData: seq<string>)
    ensures emailData == Collected(listed.GetOr([]))
  {
    var messages := listed.GetOr([]);
    emailData := [];
    if messages == [] {
      return [];
    }
    for k := 0 to |messages|
      invariant emailData == Collected(messages[..k])
    {
      assert messages[..k + 1][..k] == messages[..k];
      var outcome := Outcome(messages[k]);
      if outcome.Some? {
        emailData := emailData + [outcome.value];
      }
    }
    assert messages[..|messages|] == messages;
  }

  // ---------------------------------------------------------------------
  // Lemmas

  /**
   * A message with a headers list is never skipped; its line names the first
   * `From` and `Subject` headers (or their placeholders), then the snippet.
   */
  lemma SummarizeHeaders(hs: seq<Header>, snippet: Option<string>)
    ensures Summarize(Message(Some(hs), snippet))
            == Some("From: " + HeaderValue(hs, "From", "Unknown")
                    + " | Subject: " + HeaderValue(hs, "Subject", "No Subject")
                    + " | Body: " + snippet.GetOr(""))
  {
    SummaryLineText(HeaderValue(hs, "From", "Unknown"), HeaderValue(hs, "Subject", "No Subject"),
                    snippet.GetOr(""));
  }

  lemma SummaryLineText(sender: string, subject: string, snippet: string)
    ensures SummaryLine(sender, subject, snippet)
            == "From: " + sender + " | Subject: " + subject + " | Body: " + snippet
  {
    var parts := ["From: ", " | Subject: ", " | Body: ", ""];
    assert parts[1..] == [" | Subject: ", " | Body: ", ""];
    assert parts[1..][1..] == [" | Body: ", ""];
    assert parts[1..][1..][1..] == [""];
    var fields := [sender, subject, snippet];
    assert fields[1..] == [subject, snippet];
    assert fields[1..][1..] == [snippet];
    assert fields[1..][1..][1..] == [];
    assert Format(parts[1..][1..], fields[1..][1..]) == " | Body: " + snippet by {
      assert snippet + "" == snippet;
    }
    assert Format(parts[1..], fields[1..]) == " | Subject: " + subject + (" | Body: " + snippet);
  }

  /** Collecting distributes over concatenation: the loop keeps the messages' order. */
  lemma {:induction false} CollectedAppend(a: seq<Fetch>, b: seq<Fetch>)
    ensures Collected(a + b) == Collected(a) + Collected(b)
    decreases |b|
  {
    if b == [] {
      assert a + b == a;
    } else {
      var b' := b[..|b| - 1];
      assert (a + b)[..|a + b| - 1] == a + b';
      assert (a + b)[|a + b| - 1] == b[|b| - 1];
      CollectedAppend(a, b');
    }
  }

  /** N listed messages of which K raised give exactly N - K lines. */
  lemma {:induction false} CollectedLength(fs: seq<Fetch>)
    ensures Skipped(fs) <= |fs|
    ensures |Collected(fs)| == |fs| - Skipped(fs)
  {
    if fs != [] {
      CollectedLength(fs[..|fs| - 1]);
    }
  }

  /** Every line returned is the summary of some listed message. */
  lemma {:induction false} CollectedFrom(fs: seq<Fetch>, k: nat)
    requires k < |Collected(fs)|
    ensures exists i :: 0 <= i < |fs| && Outcome(fs[i]) == Some(Collected(fs)[k])
  {
    var init := fs[..|fs| - 1];
    var n := |Collected(init)|;
    if k < n {
      CollectedFrom(init, k);
      var i :| 0 <= i < |init| && Outcome(init[i]) == Some(Collected(init)[k]);
      assert fs[i] == init[i];
    } else {
      assert Outcome(fs[|fs| - 1]) == Some(Collected(fs)[k]);
    }
  }

  /** When no message raised, line `i` is the summary of message `i`. */
  lemma {:induction false} CollectedAllFetched(fs: seq<Fetch>)
    requires forall i :: 0 <= i < |fs| ==> Outcome(fs[i]).Some?
    ensures |Collected(fs)| == |fs|
    ensures forall i :: 0 <= i < |fs| ==> Collected(fs)[i] == Outcome(fs[i]).value
  {
    if fs != [] {
      var init := fs[..|fs| - 1];
      CollectedAllFetched(init);
    }
  }

  /** Failed messages contribute nothing: dropping one leaves the same lines. */
  lemma CollectedSkipsFailure(a: seq<Fetch>, b: seq<Fetch>)
    ensures Collected(a + [FetchFailed] + b) == Collected(a + b)
  {
    CollectedAppend(a + [FetchFailed], b);
    CollectedAppend(a, [FetchFailed]);
    CollectedAppend(a, b);
    assert [FetchFailed][..0] == [];
  }

  /** The result is empty exactly when every message raised (and so when none is listed). */
  lemma CollectedEmpty(fs: seq<Fetch>)
    ensures Collected(fs) == [] <==> Skipped(fs) == |fs|
  {
    CollectedLength(fs);
  }
}
