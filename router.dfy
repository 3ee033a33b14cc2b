/**
 * The keyword test of `send_message` (app.py:230) that sends a chat message
 * to the fitness API instead of the general chat model.
 */
module Router {
  import opened Text

  /** The three words the test looks for, in lower case. */
  const Keywords: seq<string> := ["workout", "diet", "fitness"]

  /**
   * `"workout" in m.lower() or "diet" in m.lower() or "fitness" in m.lower()`:
   * true exactly when one of the keywords occurs in the lower-cased message.
   */
  function IsFitnessQuery(message: string): (fitness: bool)
    ensures fitness <==> exists k :: k in Keywords && Occurs(k, Lower(message))
  {
    var m := Lower(message);
    ContainsIff(m, "workout");
    ContainsIff(m, "diet");
    ContainsIff(m, "fitness");
    Contains(m, "workout") || Contains(m, "diet") || Contains(m, "fitness")
  }

  /** The routing decision does not depend on letter case. */
  lemma RouteIgnoresCase(message: string)
    ensures IsFitnessQuery(Lower(message)) == IsFitnessQuery(message)
  {
    LowerIdempotent(message);
  }

  /** Every keyword is already in lower case. */
  lemma KeywordsAreLower(k: string)
    requires k in Keywords
    ensures Lower(k) == k
  {
  }

  /**
   * A message with a keyword anywhere in it, whatever surrounds it, goes to
   * the fitness API.
   */
  lemma KeywordAnywhereRoutesToFitness(pre: string, k: string, post: string)
    requires k in Keywords
    ensures IsFitnessQuery(pre + k + post)
  {
    LowerConcat(pre + k, post);
    LowerConcat(pre, k);
    KeywordsAreLower(k);
    OccursInMiddle(Lower(pre), k, Lower(post));
  }

  /** A question about a workout goes to the fitness API whatever its case. */
  lemma WorkoutQuestionRoutesToFitness()
    ensures IsFitnessQuery("Any WORKOUT tips?")
  {
    var m := "Any WORKOUT tips?";
    LowerConcat("Any ", "WORKOUT" + " tips?");
    LowerConcat("WORKOUT", " tips?");
    assert Lower("WORKOUT") == "workout";
    OccursInMiddle(Lower("Any "), "workout", Lower(" tips?"));
    assert "Any " + ("WORKOUT" + " tips?") == m;
  }

  /** A greeting goes to the general chat model. */
  lemma GreetingRoutesToChat()
    ensures !IsFitnessQuery("Hello")
  {
    var m := Lower("Hello");
    assert m == "hello";
    assert m[..4][0] == 'h' && m[1..][..4][0] == 'e';
    ContainsIff(m[2..], "diet");
    assert !Contains(m, "diet");
  }
}
