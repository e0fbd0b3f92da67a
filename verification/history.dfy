/** Ranked-prefix packing of earlier conversations into the prompt
    budget, and the choice between the raw message and the templated
    prompt (`respond_to_user`). */
module History {
  import opened Records

  /** MAX_CHARACTERS_PROMPT: the budget for the packed history. */
  const MaxCharactersPrompt: nat := 1000

  /** The text one prior exchange contributes to the history. */
  function Frame(t: Conversation): (framed: string)
    ensures |framed| == |t.userMessage| + |t.botMessage| + 15
  {
    "Human: " + t.userMessage + "\nKhoj:" + t.botMessage + "\n\n"
  }

  /** The packing loop, continued from an accumulator `acc`: append the
      next candidate's framing while it fits, stop at the first one that
      does not. */
  function PackFrom(candidates: seq<Conversation>, acc: string): (history: string)
    ensures |acc| <= |history| && history[..|acc|] == acc
    ensures |acc| <= MaxCharactersPrompt ==> |history| <= MaxCharactersPrompt
    decreases |candidates|
  {
    if |candidates| == 0 then acc
    else
      var potential := Frame(candidates[0]);
      if |acc| + |potential| > MaxCharactersPrompt then acc
      else PackFrom(candidates[1..], acc + potential)
  }

  /** The history the loop builds from the empty string. */
  function Packed(candidates: seq<Conversation>): (history: string)
    ensures |history| <= MaxCharactersPrompt
  {
    PackFrom(candidates, "")
  }

  /** The packing loop as the source writes it, with its early `break`. */
  method PackHistory(candidates: seq<Conversation>) returns (history: string)
    ensures history == Packed(candidates)
    ensures |history| <= MaxCharactersPrompt
  {
    history := "";
    var i := 0;
    while i < |candidates|
      invariant i <= |candidates|
      invariant PackFrom(candidates[i..], history) == Packed(candidates)
    {
      var potential := Frame(candidates[i]);
      if |history| + |potential| > MaxCharactersPrompt {
        break;
      }
      assert candidates[i..][1..] == candidates[i + 1..];
      history := history + Frame(candidates[i]);
      i := i + 1;
    }
  }

  // ----- An independent reference: the longest prefix that fits -----

  /** The concatenated framings of a sequence of exchanges, in order. */
  function Framed(turns: seq<Conversation>): string
  {
    if |turns| == 0 then "" else Frame(turns[0]) + Framed(turns[1..])
  }

  /** How many leading candidates are packed when `used` characters are
      already taken. */
  function FitCount(candidates: seq<Conversation>, used: nat): (k: nat)
    ensures k <= |candidates|
    decreases |candidates|
  {
    if |candidates| == 0 then 0
    else if used + |Frame(candidates[0])| > MaxCharactersPrompt then 0
    else 1 + FitCount(candidates[1..], used + |Frame(candidates[0])|)
  }

  /** How many candidates the packed history holds. */
  function PackedCount(candidates: seq<Conversation>): (k: nat)
    ensures k <= |candidates|
  {
    FitCount(candidates, 0)
  }

  lemma {:induction false} FramedSnoc(turns: seq<Conversation>, t: Conversation)
    ensures Framed(turns + [t]) == Framed(turns) + Frame(t)
    decreases |turns|
  {
    if |turns| > 0 {
      assert (turns + [t])[1..] == turns[1..] + [t];
      FramedSnoc(turns[1..], t);
    }
  }

  /** The continued loop appends the framings of the candidates that fit. */
  lemma {:induction false} PackFromIsFramedPrefix(candidates: seq<Conversation>, acc: string)
    ensures PackFrom(candidates, acc) == acc + Framed(candidates[..FitCount(candidates, |acc|)])
    decreases |candidates|
  {
    var k := FitCount(candidates, |acc|);
    if |candidates| == 0 || |acc| + |Frame(candidates[0])| > MaxCharactersPrompt {
      assert candidates[..k] == [];
    } else {
      var potential := Frame(candidates[0]);
      var tail := candidates[1..];
      PackFromIsFramedPrefix(tail, acc + potential);
      assert candidates[..k][1..] == tail[..k - 1];
      assert Framed(candidates[..k]) == potential + Framed(tail[..k - 1]);
    }
  }

  /** The packed history is the framings of the first `PackedCount`
      candidates: whole exchanges, in ranked order, none skipped. */
  lemma PackedIsFramedPrefix(candidates: seq<Conversation>)
    ensures Packed(candidates) == Framed(candidates[..PackedCount(candidates)])
  {
    PackFromIsFramedPrefix(candidates, "");
  }

  lemma {:induction false} FitCountIsLongestFit(candidates: seq<Conversation>, used: nat, j: nat)
    requires used <= MaxCharactersPrompt
    requires j <= |candidates|
    ensures used + |Framed(candidates[..j])| <= MaxCharactersPrompt <==> j <= FitCount(candidates, used)
    decreases |candidates|
  {
    if j > 0 {
      var potential := Frame(candidates[0]);
      assert candidates[..j][1..] == candidates[1..][..j - 1];
      assert Framed(candidates[..j]) == potential + Framed(candidates[1..][..j - 1]);
      if used + |potential| <= MaxCharactersPrompt {
        FitCountIsLongestFit(candidates[1..], used + |potential|, j - 1);
      }
    }
  }

  /** A prefix of the candidates fits the budget exactly when it is no
      longer than the packed one: the greedy loop keeps the longest prefix
      whose framings fit in MAX_CHARACTERS_PROMPT characters. */
  lemma PackedCountIsLongestFit(candidates: seq<Conversation>, j: nat)
    requires j <= |candidates|
    ensures |Framed(candidates[..j])| <= MaxCharactersPrompt <==> j <= PackedCount(candidates)
  {
    FitCountIsLongestFit(candidates, 0, j);
  }

  /** Packing stops at the first candidate that does not fit: adding its
      framing to the packed history would exceed the budget. */
  lemma StopsAtFirstMisfit(candidates: seq<Conversation>)
    requires PackedCount(candidates) < |candidates|
    ensures |Packed(candidates)| + |Frame(candidates[PackedCount(candidates)])| > MaxCharactersPrompt
  {
    var k := PackedCount(candidates);
    PackedIsFramedPrefix(candidates);
    PackedCountIsLongestFit(candidates, k + 1);
    assert candidates[..k + 1] == candidates[..k] + [candidates[k]];
    FramedSnoc(candidates[..k], candidates[k]);
  }

  /** A later candidate that would fit is still left out once an earlier
      one did not: with `first` packed and `second` too long to follow it,
      the history is `first` alone, whatever comes after. */
  lemma NoSkipAhead(first: Conversation, second: Conversation, later: seq<Conversation>)
    requires |Frame(first)| <= MaxCharactersPrompt < |Frame(first)| + |Frame(second)|
    ensures Packed([first, second] + later) == Frame(first)
  {
    var candidates := [first, second] + later;
    assert candidates[0] == first;
    assert |"" + Frame(first)| <= MaxCharactersPrompt;
    assert PackFrom(candidates, "") == PackFrom(candidates[1..], "" + Frame(first));
    assert "" + Frame(first) == Frame(first);
    assert candidates[1..][0] == second;
    assert PackFrom(candidates[1..], Frame(first)) == Frame(first);
  }

  /** Two exchanges whose framings fit together are both packed, best-ranked first. */
  lemma BothTurnsFit(first: Conversation, second: Conversation)
    requires |Frame(first)| + |Frame(second)| <= MaxCharactersPrompt
    ensures Packed([first, second]) == Frame(first) + Frame(second)
  {
    var candidates := [first, second];
    assert candidates[1..] == [second];
    assert PackFrom(candidates, "") == PackFrom([second], "" + Frame(first));
    assert "" + Frame(first) == Frame(first);
    assert [second][1..] == [];
  }

  /** The history is empty exactly when there is no candidate or the
      best-ranked one alone is over the budget. */
  lemma PackedEmptyIff(candidates: seq<Conversation>)
    ensures Packed(candidates) == "" <==>
      |candidates| == 0 || |Frame(candidates[0])| > MaxCharactersPrompt
  {
    if |candidates| > 0 && |Frame(candidates[0])| <= MaxCharactersPrompt {
      assert |PackFrom(candidates[1..], Frame(candidates[0]))| >= |Frame(candidates[0])|;
    }
  }

  // ----- Prompt selection -----

  /** `formatted_message`: the raw message when nothing was packed,
      otherwise the template `previous_conversations_prompt` applied to
      (query, conversation_history). The template's text is not part of
      this model, so it is a parameter. */
  function Prompt(message: string, history: string, template: (string, string) -> string): string
  {
    if history != "" then template(message, history) else message
  }

  /** When the best-ranked candidate alone is over the budget, nothing is
      packed and the prompt is the user message verbatim. */
  lemma FirstCandidateTooLong(message: string, candidates: seq<Conversation>, template: (string, string) -> string)
    requires |candidates| > 0 && |Frame(candidates[0])| > MaxCharactersPrompt
    ensures Packed(candidates) == ""
    ensures Prompt(message, Packed(candidates), template) == message
  {
    PackedEmptyIff(candidates);
  }

  /** When the best-ranked candidate fits, the prompt is the template
      applied to the raw message and the packed history, and that history
      starts with the best-ranked candidate's framing. */
  lemma FirstCandidateFits(message: string, candidates: seq<Conversation>, template: (string, string) -> string)
    requires |candidates| > 0 && |Frame(candidates[0])| <= MaxCharactersPrompt
    ensures Packed(candidates) != ""
    ensures Prompt(message, Packed(candidates), template) == template(message, Packed(candidates))
    ensures Packed(candidates)[..|Frame(candidates[0])|] == Frame(candidates[0])
  {
    PackedEmptyIff(candidates);
    PackedIsFramedPrefix(candidates);
    var k := PackedCount(candidates);
    PackedCountIsLongestFit(candidates, 1);
    assert candidates[..k][0] == candidates[0];
  }
}
