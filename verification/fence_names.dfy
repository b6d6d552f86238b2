/**
 * The captions the level files give their fences (`friendlyName` of
 * buildLevelConfigs.ts, repeated verbatim in dragLevelConfigs.ts): a fixed
 * table of eight ids, `state<digits>` as "Fence <digits>", and otherwise the
 * id with its first letter upper-cased.
 */
module FenceNames {
  import opened Wrappers
  import opened Text

  /** The eight ids with a fixed caption. */
  const FixedIds: seq<string> := ["start", "end", "middle", "top", "bottom", "loop", "a", "b"]

  /** `names[id]` of the fixed table. */
  function FixedName(id: string): (r: Option<string>)
    ensures r.Some? <==> id in FixedIds
  {
    if id == "start" then Some("Start")
    else if id == "end" then Some("End")
    else if id == "middle" then Some("Middle")
    else if id == "top" then Some("Top")
    else if id == "bottom" then Some("Bottom")
    else if id == "loop" then Some("Loop")
    else if id == "a" then Some("A")
    else if id == "b" then Some("B")
    else None
  }

  /** Each fixed caption is its id with the first letter upper-cased. */
  lemma FixedNameIsUpperFirst(id: string)
    requires id in FixedIds
    ensures FixedName(id) == Some(UpperFirst(id))
  {
    if id == "start" { assert UpperFirst(id) == "Start"; }
    else if id == "end" { assert UpperFirst(id) == "End"; }
    else if id == "middle" { assert UpperFirst(id) == "Middle"; }
    else if id == "top" { assert UpperFirst(id) == "Top"; }
    else if id == "bottom" { assert UpperFirst(id) == "Bottom"; }
    else if id == "loop" { assert UpperFirst(id) == "Loop"; }
    else if id == "a" { assert UpperFirst(id) == "A"; }
    else { assert id == "b" && UpperFirst(id) == "B"; }
  }

  /** The digits of a bare `state<digits>` id (`/^state(\d+)$/`), if it is one. */
  function StrictStateDigits(id: string): (r: Option<string>)
    ensures r.Some? <==> |id| > 5 && id[..5] == "state" && Digits(id[5..])
    ensures r.Some? ==> id == "state" + r.value
  {
    if |id| > 5 && id[..5] == "state" && Digits(id[5..]) then Some(id[5..]) else None
  }

  /** `friendlyName(id)` of the level files. */
  function ConfigFriendlyName(id: string): (r: string)
    ensures id in FixedIds ==> r == FixedName(id).value
    ensures id !in FixedIds && StrictStateDigits(id).Some? ==> r == "Fence " + StrictStateDigits(id).value
    ensures id !in FixedIds && StrictStateDigits(id).None? ==> r == UpperFirst(id)
  {
    var fixed := FixedName(id);
    if fixed.Some? then fixed.value
    else
      var digits := StrictStateDigits(id);
      if digits.Some? then "Fence " + digits.value else UpperFirst(id)
  }

  /** `state<n>` becomes "Fence <n>" with the same digits. */
  lemma ConfigFriendlyNameState(n: nat)
    ensures ConfigFriendlyName("state" + NatToString(n)) == "Fence " + NatToString(n)
  {
    var id := "state" + NatToString(n);
    assert id[..5] == "state" && id[5..] == NatToString(n);
    assert id !in FixedIds by {
      assert |id| > 5;
    }
  }

  /** Only the bare form counts: with a separator the fallback applies, so `state-3` becomes `State-3`. */
  lemma ConfigFriendlyNameSeparator()
    ensures ConfigFriendlyName("state-3") == "State-3"
  {
    var id := "state-3";
    assert id[5..] == "-3" && !IsDigit(id[5..][0]);
    assert UpperFirst(id) == "State-3";
  }
}
