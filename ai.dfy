/**
 * The AI chat cog (src/my_discord_bot/cogs/ai.py): the completion's text is relayed to
 * the channel in pieces that fit the platform's 2000-character message limit, and the
 * model used for completions is a piece of state only the bot owner may change.
 *
 * The completion service itself is not modelled: the text it returns is a parameter.
 */
module Ai {
  import opened Wrappers

  /** The platform's limit on the length of one message. */
  const Limit: nat := 2000

  /** Python's `s[lo:hi]` for non-negative bounds: both ends clamp to the length. */
  function PySlice(s: string, lo: nat, hi: nat): (r: string)
    ensures |r| <= if hi >= lo then hi - lo else 0
    ensures lo < hi && lo < |s| ==> r != []
    ensures lo >= |s| ==> r == []
  {
    var a := if lo < |s| then lo else |s|;
    var b := if hi < |s| then hi else |s|;
    if a <= b then s[a..b] else []
  }

  /** `math.ceil(n / d)` for a natural `n` and a positive `d`. */
  function CeilDiv(n: nat, d: nat): (q: nat)
    requires d > 0
    ensures q * d >= n && (q == 0 || (q - 1) * d < n)
  {
    (n + d - 1) / d
  }

  /** The messages, one after another. */
  function Flatten(ss: seq<string>): string {
    if ss == [] then [] else Flatten(ss[..|ss| - 1]) + ss[|ss| - 1]
  }

  lemma FlattenSnoc(ss: seq<string>, x: string)
    ensures Flatten(ss + [x]) == Flatten(ss) + x
  {
    assert (ss + [x])[..|ss|] == ss;
  }

  /** The k-th piece: `message[2000*k : 2000*(k+1)]`. */
  function Piece(message: string, k: nat): string {
    PySlice(message, Limit * k, Limit * (k + 1))
  }

  /** How much of the text the pieces 0 .. n-1 cover. */
  function Covered(message: string, n: nat): (c: nat)
    ensures c <= |message|
  {
    if Limit * n < |message| then Limit * n else |message|
  }

  /** The pieces 0 .. n-1 rebuild the text up to `2000 * n`. */
  lemma PieceExtends(message: string, k: nat)
    ensures message[..Covered(message, k)] + Piece(message, k) == message[..Covered(message, k + 1)]
  {
    var upTo, next := Covered(message, k), Covered(message, k + 1);
    assert Piece(message, k) == message[upTo..next];
    assert message[..next] == message[..upTo] + message[upTo..next];
  }

  /**
   * `chat`, AS WRITTEN (lines 65-69): the first 2000 characters, then, for a longer text,
   * the pieces 1 through ceil(len / 2000). Together they rebuild the text and none is
   * over the limit, but the last piece of a long text always starts at or past its end:
   * the final follow-up is an empty message.
   */
  method Chat(message: string) returns (sends: seq<string>)
    ensures sends != [] && sends[0] == PySlice(message, 0, Limit)
    ensures Flatten(sends) == message
    ensures forall k :: 0 <= k < |sends| ==> |sends[k]| <= Limit && sends[k] == Piece(message, k)
    ensures |message| <= Limit ==> |sends| == 1
    ensures |message| > Limit ==> |sends| == CeilDiv(|message|, Limit) + 1 && sends[|sends| - 1] == []
  {
    sends := [PySlice(message, 0, Limit)];
    assert Flatten(sends) == [] + sends[0];
    PieceExtends(message, 0);
    if |message| > Limit {
      var pieces := CeilDiv(|message|, Limit);
      for split := 1 to pieces + 1
        invariant |sends| == split
        invariant forall k :: 0 <= k < split ==> sends[k] == Piece(message, k)
        invariant Flatten(sends) == message[..Covered(message, split)]
      {
        PieceExtends(message, split);
        FlattenSnoc(sends, Piece(message, split));
        sends := sends + [Piece(message, split)];
      }
      assert Limit * pieces >= |message|;
      assert sends[pieces] == Piece(message, pieces) == [];
      assert message[..|message|] == message;
    }
  }

  /**
   * `chat` as evidently intended: the pieces 1 through ceil(len / 2000) - 1 follow the
   * first, so every message sent is non-empty when the text is.
   */
  method ChatWithoutEmptyTail(message: string) returns (sends: seq<string>)
    ensures sends != [] && sends[0] == PySlice(message, 0, Limit)
    ensures Flatten(sends) == message
    ensures forall k :: 0 <= k < |sends| ==> |sends[k]| <= Limit && sends[k] == Piece(message, k)
    ensures |sends| == if |message| <= Limit then 1 else CeilDiv(|message|, Limit)
    ensures message != [] ==> forall k :: 0 <= k < |sends| ==> sends[k] != []
  {
    sends := [PySlice(message, 0, Limit)];
    assert Flatten(sends) == [] + sends[0];
    PieceExtends(message, 0);
    if |message| > Limit {
      var pieces := CeilDiv(|message|, Limit);
      for split := 1 to pieces
        invariant |sends| == split
        invariant forall k :: 0 <= k < split ==> sends[k] == Piece(message, k)
        invariant forall k :: 0 <= k < split ==> sends[k] != []
        invariant Flatten(sends) == message[..Covered(message, split)]
      {
        PieceExtends(message, split);
        FlattenSnoc(sends, Piece(message, split));
        sends := sends + [Piece(message, split)];
      }
    }
  }

  /** The cog's state: the name of the model `chat` asks for. */
  class AiCog {
    var modelName: string

    /** The model comes from OPENAI_MODEL_NAME, the empty string when it is unset. */
    constructor (envModelName: Option<string>)
      ensures modelName == envModelName.GetOr("")
    {
      modelName := envModelName.GetOr("");
    }

    /**
     * `chat_model`: without a name (None or the empty string) it reports the current one;
     * with a name, the owner sets it and anyone else is refused.
     */
    method ChatModel(isOwner: bool, name: Option<string>) returns (reply: string)
      modifies this
      ensures (name.None? || name.value == []) ==>
                modelName == old(modelName) && reply == "Current model used by /chat: `" + old(modelName) + "`."
      ensures name.Some? && name.value != [] && !isOwner ==>
                modelName == old(modelName) && reply == "Only the bot owner may change the model!"
      ensures name.Some? && name.value != [] && isOwner ==>
                modelName == name.value && reply == "LLM model changed to `" + name.value + "`."
    {
      if name.None? || name.value == [] {
        return "Current model used by /chat: `" + modelName + "`.";
      }
      if !isOwner {
        return "Only the bot owner may change the model!";
      }
      modelName := name.value;
      reply := "LLM model changed to `" + name.value + "`.";
    }
  }
}
