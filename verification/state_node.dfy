/**
 * What a fence shows on the board (StateNode.tsx): its caption, whether the
 * caption is shown, and which farmer picture an accepting fence carries
 * after an animation.
 */
module StateNode {
  import opened Wrappers
  import opened Text
  import opened FenceNames

  /** The `/i` fold of a whole string. */
  function Lower(s: string): (r: string)
    ensures |r| == |s| && forall i :: 0 <= i < |s| ==> r[i] == LowerChar(s[i])
  {
    if s == [] then [] else [LowerChar(s[0])] + Lower(s[1..])
  }

  /**
   * The reference reading of `/^state[-_]?(\d+)$/i`: the id is a
   * case-insensitive "state", then "", "-" or "_", then the digits.
   */
  ghost predicate StatePattern(id: string, digits: string) {
    exists sep :: sep in ["", "-", "_"] && |id| >= 5 && Lower(id[..5]) == "state"
                  && id[5..] == sep + digits && Digits(digits)
  }

  /** The captured digits of `id.match(/^state[-_]?(\d+)$/i)`, if it matches. */
  function StateDigits(id: string): (r: Option<string>)
  {
    if |id| > 5 && Lower(id[..5]) == "state" then
      var rest := id[5..];
      if rest[0] == '-' || rest[0] == '_' then
        (if Digits(rest[1..]) then Some(rest[1..]) else None)
      else if Digits(rest) then Some(rest)
      else None
    else None
  }

  /** The match succeeds exactly on the pattern, and captures its digits. */
  lemma StateDigitsMeans(id: string, digits: string)
    ensures StateDigits(id) == Some(digits) <==> StatePattern(id, digits)
  {
    if StateDigits(id) == Some(digits) {
      var rest := id[5..];
      if rest[0] == '-' || rest[0] == '_' {
        var sep := [rest[0]];
        assert rest == sep + digits;
        assert sep in ["", "-", "_"];
      } else {
        assert rest == "" + digits;
      }
    }
    if StatePattern(id, digits) {
      var sep :| sep in ["", "-", "_"] && |id| >= 5 && Lower(id[..5]) == "state"
                 && id[5..] == sep + digits && Digits(digits);
      var rest := id[5..];
      if sep == "" {
        assert rest == digits && !(rest[0] == '-' || rest[0] == '_');
      } else {
        assert rest[0] == sep[0] && rest[1..] == digits;
      }
    }
  }

  /**
   * `friendlyName(id, caption)`: a non-empty caption other than the id is shown
   * as is; otherwise the fixed table, then "Fence <digits>" for the state
   * pattern, then the id with its first letter upper-cased.
   */
  function FriendlyName(id: string, caption: Option<string>): (r: string)
    ensures caption.Some? && caption.value != "" && caption.value != id ==> r == caption.value
    ensures (caption.None? || caption.value == "" || caption.value == id) && id in FixedIds ==> r == UpperFirst(id)
    ensures (caption.None? || caption.value == "" || caption.value == id) && id !in FixedIds ==>
              (StateDigits(id).Some? ==> r == "Fence " + StateDigits(id).value)
              && (StateDigits(id).None? ==> r == UpperFirst(id))
  {
    if caption.Some? && caption.value != "" && caption.value != id then caption.value
    else if FixedName(id).Some? then
      FixedNameIsUpperFirst(id);
      FixedName(id).value
    else if StateDigits(id).Some? then "Fence " + StateDigits(id).value
    else UpperFirst(id)
  }

  /**
   * The lenient pattern accepts "state" in any case, with or without a
   * separator, so `State_07` is "Fence 07" and `state-3` is "Fence 3".
   */
  lemma FriendlyNameLenient(word: string, sep: string, digits: string)
    requires |word| == 5 && Lower(word) == "state" && sep in ["", "-", "_"] && Digits(digits)
    ensures FriendlyName(word + (sep + digits), None) == "Fence " + digits
  {
    var rest := sep + digits;
    var id := word + rest;
    assert id[..5] == word && id[5..] == rest;
    assert StatePattern(id, digits);
    StateDigitsMeans(id, digits);
    assert id[0] == word[0];
    assert LowerChar(word[0]) == 's';
    assert id !in FixedIds;
  }

  /** `showLabel && !isStart ? friendlyName(id, caption) : null` */
  function DisplayLabel(showLabel: bool, isStart: bool, id: string, caption: Option<string>): (r: Option<string>)
    ensures r.Some? <==> showLabel && !isStart
    ensures r.Some? ==> r.value == FriendlyName(id, caption)
  {
    if showLabel && !isStart then Some(FriendlyName(id, caption)) else None
  }

  datatype AnimationResult = Success | Fail
  datatype Farmer = Asleep | Grumpy | Awake

  /** `getFarmerImage`: asleep after a success, grumpy after a failure, awake otherwise. */
  function FarmerImage(result: Option<AnimationResult>): (r: Farmer)
    ensures r == Asleep <==> result == Some(Success)
    ensures r == Grumpy <==> result == Some(Fail)
    ensures r == Awake <==> result.None?
  {
    match result
    case Some(Success) => Asleep
    case Some(Fail) => Grumpy
    case None => Awake
  }
}
