/**
 * Cleaning of the model's reply before it is parsed as JSON: every
 * "```json" opener is removed, then every remaining "```" fence, then the
 * surrounding whitespace.
 */
module Fences {
  import opened Text

  const JsonFence: string := "```json"
  const Fence: string := "```"

  /** The reply text with its markdown code fences and outer whitespace removed. */
  function Clean(reply: string): string {
    Strip(RemoveAll(RemoveAll(reply, JsonFence), Fence))
  }

  /** A backtick at the head of `RemoveAll(s, Fence)` is the head of `s`. */
  lemma RemovedHead(s: string)
    ensures RemoveAll(s, Fence) != [] && RemoveAll(s, Fence)[0] == '`' ==> s != [] && s[0] == '`'
  {
  }

  /**
   * When `s` does not start with a fence, keeping its first character and
   * removing the fences from the rest does not put a fence at the head.
   */
  lemma NoFenceAtHead(s: string)
    requires |s| >= |Fence| && s[..|Fence|] != Fence
    ensures !OccursAt([s[0]] + RemoveAll(s[1..], Fence), Fence, 0)
  {
    var t := RemoveAll(s[1..], Fence);
    RemovedHead(s[1..]);
    if |s[1..]| >= |Fence| && s[1..][..|Fence|] != Fence {
      assert t == [s[1]] + RemoveAll(s[2..], Fence);
      RemovedHead(s[2..]);
    }
  }

  /**
   * Removing every "```" leaves no "```" behind, not even one formed by the
   * characters on either side of a removed fence.
   */
  lemma {:induction false} NoFenceAfterRemoval(s: string)
    ensures !Contains(RemoveAll(s, Fence), Fence)
    decreases |s|
  {
    var r := RemoveAll(s, Fence);
    if |s| < |Fence| {
      assert |r| < |Fence|;
    } else if s[..|Fence|] == Fence {
      NoFenceAfterRemoval(s[|Fence|..]);
    } else {
      var t := RemoveAll(s[1..], Fence);
      assert r == [s[0]] + t;
      NoFenceAfterRemoval(s[1..]);
      forall i | 0 <= i <= |r| - |Fence|
        ensures !OccursAt(r, Fence, i)
      {
        if i == 0 {
          NoFenceAtHead(s);
        } else {
          OccursAfterHead(s[0], t, Fence, i);
        }
      }
    }
  }

  /** A cleaned reply holds no "```" and has no whitespace at either end. */
  lemma CleanedReply(reply: string)
    ensures !Contains(Clean(reply), Fence)
    ensures Clean(reply) == [] || (!IsSpace(Clean(reply)[0]) && !IsSpace(Clean(reply)[|Clean(reply)| - 1]))
  {
    NoFenceAfterRemoval(RemoveAll(reply, JsonFence));
    StripKeepsAbsence(RemoveAll(RemoveAll(reply, JsonFence), Fence), Fence);
    StripIsTrimmedSlice(RemoveAll(RemoveAll(reply, JsonFence), Fence));
  }

  /**
   * A body without backticks, wrapped in "```json" ... "```", cleans to the
   * same text as the bare body.
   */
  lemma FencedBodyCleansLikeBody(body: string)
    requires forall i :: 0 <= i < |body| ==> body[i] != '`'
    ensures Clean(JsonFence + body + Fence) == Clean(body)
  {
    var s := JsonFence + body + Fence;
    assert s[..|JsonFence|] == JsonFence;
    assert s[|JsonFence|..] == body + Fence;
    assert RemoveAll(s, JsonFence) == RemoveAll(body + Fence, JsonFence);
    RemoveAllSkipsPlainPrefix(body, Fence, JsonFence);
    assert RemoveAll(Fence, JsonFence) == Fence;
    RemoveAllSkipsPlainPrefix(body, Fence, Fence);
    assert RemoveAll(Fence, Fence) == [];
    assert body + [] == body;
    RemoveAllOfPlainString(body, JsonFence);
    RemoveAllOfPlainString(body, Fence);
  }
}
