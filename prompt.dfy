/**
 * The part of `generate_briefing` in app.py that runs before the completion
 * request: the empty-input guard and the user message sent with the request.
 */
module Prompt {
  import opened Wrappers
  import opened Text

  /**
   * The user message of the single completion request, or None when the
   * email list is empty and the function returns before any client is built.
   */
  function UserMessage(emails: seq<string>): (r: Option<string>)
    ensures r.None? <==> emails == []
    ensures r.Some? ==> StartsWith(r.value, "EMAILS:\n")
  {
    if emails == [] then None else Some("EMAILS:\n" + Join(emails, "\n"))
  }

  /**
   * The message is the header line `EMAILS:` followed by one line per email,
   * in order, whenever no email spans several lines.
   */
  lemma UserMessageLines(emails: seq<string>)
    requires emails != []
    requires forall i :: 0 <= i < |emails| ==> '\n' !in emails[i]
    ensures UserMessage(emails).Some?
    ensures Split(UserMessage(emails).value, "\n") == ["EMAILS:"] + emails
  {
    var body := Join(emails, "\n");
    assert "EMAILS:\n" + body == "EMAILS:" + "\n" + body;
    SplitPrefix("EMAILS:", "\n", body);
    SplitJoin(emails, "\n");
  }
}
