/** How the transcript panel turns each transcript line into a chat bubble
    (frontend/src/components/Transcript.jsx): the side comes from the
    "You:" prefix, the text from what follows the first colon. */
module Transcript {
  import opened Common
  import opened Text

  /** One rendered bubble: on the user's side or the interviewer's, and
      the text shown in it. */
  datatype Bubble = Bubble(isUser: bool, body: string)

  /** `line.substring(line.indexOf(':') + 1)`: the text after the first
      colon, or the whole line when it has no colon. */
  function AfterFirstColon(line: string): (r: string)
    ensures ':' !in line ==> r == line
    ensures ':' in line ==>
      |r| < |line| && line == line[..|line| - |r| - 1] + ":" + r && ':' !in line[..|line| - |r| - 1]
  {
    var k := IndexOf(line, ':');
    if k < 0 then line
    else
      assert line == line[..k] + ":" + line[k + 1..];
      line[k + 1..]
  }

  /** The bubble for one line: the user's side exactly when the line
      starts with "You:", and then it shows the rest of the line after that
      prefix, stripped; a line without a colon is shown whole, stripped. */
  function BubbleOf(line: string): (b: Bubble)
    ensures b.isUser <==> StartsWith(line, "You:")
    ensures StartsWith(line, "You:") ==> b.body == Strip(line[4..])
    ensures ':' !in line ==> b.body == Strip(line)
  {
    if StartsWith(line, "You:") then
      assert line == "You" + ":" + line[4..];
      PrefixedLine("You", line[4..]);
      Bubble(true, Strip(AfterFirstColon(line)))
    else
      Bubble(false, Strip(AfterFirstColon(line)))
  }

  /** The panel: one bubble per transcript line, in order. */
  function Bubbles(transcript: seq<string>): (r: seq<Bubble>)
    ensures |r| == |transcript|
    ensures forall i :: 0 <= i < |r| ==> r[i] == BubbleOf(transcript[i])
  {
    Map(BubbleOf, transcript)
  }

  /** A transcript line as the server writes it: `f"You: {user_text}"`
      for an utterance, `f"Alex: {response}"` for a reply. */
  datatype ServerLine = UserSaid(text: string) | AlexSaid(text: string)

  function LineText(l: ServerLine): string
  {
    match l
    case UserSaid(t) => "You: " + t
    case AlexSaid(t) => "Alex: " + t
  }

  /** The panel shows a transcript the server wrote line for line: each
      utterance on the user's side and each reply on the interviewer's,
      with exactly the text that was sent, stripped, whatever colons or
      prefixes that text itself holds. */
  lemma ServerTranscriptShown(lines: seq<ServerLine>)
    ensures var r := Bubbles(Map(LineText, lines));
      |r| == |lines|
      && forall i :: 0 <= i < |lines| ==> r[i] == Bubble(lines[i].UserSaid?, Strip(lines[i].text))
  {
    var transcript := Map(LineText, lines);
    forall i | 0 <= i < |lines|
      ensures BubbleOf(transcript[i]) == Bubble(lines[i].UserSaid?, Strip(lines[i].text))
    {
      match lines[i]
      case UserSaid(t) => UserLineBubble(t);
      case AlexSaid(t) => InterviewerLineBubble(t);
    }
  }

  /** When a colon-free speaker prefix is followed by a colon, the text
      kept is exactly what follows, whatever colons it holds. */
  lemma PrefixedLine(prefix: string, text: string)
    requires ':' !in prefix
    ensures AfterFirstColon(prefix + ":" + text) == text
  {
    var line := prefix + ":" + text;
    assert line[|prefix|] == ':';
  }

  /** The server's "You: " line for an utterance is shown on the user's
      side with the utterance, stripped. */
  lemma UserLineBubble(text: string)
    ensures BubbleOf("You: " + text) == Bubble(true, Strip(text))
  {
    assert "You: " + text == "You" + ":" + ([' '] + text);
    PrefixedLine("You", [' '] + text);
    StripLeadingSpace(' ', text);
  }

  /** The server's "Alex: " line for a reply is shown on the interviewer's
      side with the whole reply, stripped, colons and all. */
  lemma InterviewerLineBubble(reply: string)
    ensures BubbleOf("Alex: " + reply) == Bubble(false, Strip(reply))
  {
    assert "Alex: " + reply == "Alex" + ":" + ([' '] + reply);
    PrefixedLine("Alex", [' '] + reply);
    StripLeadingSpace(' ', reply);
    assert ("Alex: " + reply)[..4] != "You:" by {
      assert ("Alex: " + reply)[0] == 'A';
    }
  }
}
