/**
 * The chat transcript processText hands to the editor: every object in the
 * response's `messages` array becomes one paragraph, "You: " for the user's
 * messages and "SemanticEQ: " for everything else, each followed by a blank
 * line; entries that are not objects are skipped. An array entry counts as
 * an object (JUCE's `isObject()`), and with no `role` or `value` it becomes
 * "SemanticEQ: " and a blank line.
 */
module Messages {
  import opened Json

  /** The paragraph one message object contributes. */
  function Paragraph(message: Json): string
  {
    var sender := ToText(Get(message, "role"));
    var text := ToText(Get(message, "value"));
    if sender == "user" then "You: " + text + "\n\n" else "SemanticEQ: " + text + "\n\n"
  }

  /** The transcript of a message array, built front to back as processText does. */
  function Transcript(messages: seq<Json>): string
    decreases |messages|
  {
    if messages == [] then ""
    else
      var front := Transcript(messages[..|messages| - 1]);
      if IsObject(Last(messages)) then front + Paragraph(Last(messages)) else front
  }

  /** The transcript of two arrays one after the other is the two transcripts one after the other. */
  lemma {:induction false} TranscriptAppend(a: seq<Json>, b: seq<Json>)
    ensures Transcript(a + b) == Transcript(a) + Transcript(b)
    decreases |b|
  {
    if b != [] {
      var n := |b| - 1;
      assert (a + b)[..|a + b| - 1] == a + b[..n];
      TranscriptAppend(a, b[..n]);
    } else {
      assert a + b == a;
    }
  }

  /** Entries that are not objects leave no trace: only the object entries are transcribed. */
  lemma {:induction false} TranscriptOfObjects(messages: seq<Json>)
    ensures Transcript(messages) == Transcript(ObjectEntries(messages))
    decreases |messages|
  {
    if messages != [] {
      var n := |messages| - 1;
      var front := messages[..n];
      TranscriptOfObjects(front);
      var objects := ObjectEntries(front);
      if IsObject(Last(messages)) {
        TranscriptAppend(objects, [Last(messages)]);
        assert [Last(messages)][..0] == [];
      }
    }
  }

  /** What one message adds: nothing for a non-object, else its sender's prefix, its text and a blank line. */
  lemma TranscriptOfOne(message: Json)
    ensures !IsObject(message) ==> Transcript([message]) == ""
    ensures IsObject(message) && ToText(Get(message, "role")) == "user" ==>
              Transcript([message]) == "You: " + ToText(Get(message, "value")) + "\n\n"
    ensures IsObject(message) && ToText(Get(message, "role")) != "user" ==>
              Transcript([message]) == "SemanticEQ: " + ToText(Get(message, "value")) + "\n\n"
  {
    assert [message][..0] == [];
  }

  /**
   * The loop of processText that accumulates `formattedMessages`; a
   * `messages` value that is not an array leaves it empty.
   */
  method FormatMessages(messages: Json) returns (formatted: string)
    ensures formatted == if messages.Arr? then Transcript(messages.items) else ""
  {
    formatted := "";
    if messages.Arr? {
      var items := messages.items;
      var i := 0;
      while i < |items|
        invariant 0 <= i <= |items|
        invariant formatted == Transcript(items[..i])
      {
        var message := items[i];
        assert items[..i + 1][..i] == items[..i];
        if IsObject(message) {
          var sender := ToText(Get(message, "role"));
          var text := ToText(Get(message, "value"));
          if sender == "user" {
            formatted := formatted + ("You: " + text + "\n\n");
          } else {
            formatted := formatted + ("SemanticEQ: " + text + "\n\n");
          }
        }
        i := i + 1;
      }
      assert items[..|items|] == items;
    }
  }
}
