/**
 * The free-text action box: a one-letter command, in either case, maps to
 * a canned acknowledgement; anything else gets the invalid-action reply.
 * Nothing in the game changes.
 */
module Actions {

  const InvalidAction: string := "Invalid action. Try again."

  const Responses: map<string, string> := map[
    "p" := "You placed a new tile.",
    "z" := "You zoned a new area.",
    "s" := "You specialized your city.",
    "r" := "You conducted research.",
    "c" := "You customized your city.",
    "q" := "Quitting the game. Goodbye!"]

  /** The command letters. */
  const Commands: seq<char> := ['p', 'z', 's', 'r', 'c', 'q']

  /** Lower-cases an ASCII capital letter; leaves every other character alone. */
  function LowerChar(c: char): char {
    if 'A' <= c <= 'Z' then (c as int - 'A' as int + 'a' as int) as char else c
  }

  function Lower(s: string): string {
    seq(|s|, i requires 0 <= i < |s| => LowerChar(s[i]))
  }

  /** The reply is one of the six canned replies or the invalid-action one. */
  function ProcessAction(action: string): (response: string)
    ensures response in Responses.Values || response == InvalidAction
    ensures response != InvalidAction ==> |action| == 1
  {
    var key := Lower(action);
    if key in Responses then Responses[key] else InvalidAction
  }

  /** An action is recognised exactly when it is one command letter, in either case. */
  lemma ProcessActionRecognises(action: string)
    ensures ProcessAction(action) != InvalidAction <==> |action| == 1 && LowerChar(action[0]) in Commands
  {
    var key := Lower(action);
    if |action| == 1 {
      assert key == [LowerChar(action[0])];
    }
  }

  /** The reply to a recognised action is the one for its lower-cased letter. */
  lemma ProcessActionReply(action: string)
    requires |action| == 1
    ensures LowerChar(action[0]) == 'p' ==> ProcessAction(action) == "You placed a new tile."
    ensures LowerChar(action[0]) == 'z' ==> ProcessAction(action) == "You zoned a new area."
    ensures LowerChar(action[0]) == 's' ==> ProcessAction(action) == "You specialized your city."
    ensures LowerChar(action[0]) == 'r' ==> ProcessAction(action) == "You conducted research."
    ensures LowerChar(action[0]) == 'c' ==> ProcessAction(action) == "You customized your city."
    ensures LowerChar(action[0]) == 'q' ==> ProcessAction(action) == "Quitting the game. Goodbye!"
  {
    assert Lower(action) == [LowerChar(action[0])];
  }

  /** The reply does not depend on letter case. */
  lemma ProcessActionIgnoresCase(action: string)
    ensures ProcessAction(action) == ProcessAction(Lower(action))
  {
    assert Lower(Lower(action)) == Lower(action);
  }
}
