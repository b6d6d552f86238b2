/**
 * The explanation shown after an accept/reject answer, with its sheep
 * pictures (renderExplanationWithSheep in AcceptRejectLevel.tsx): the text is
 * split around `[sheep-N]` tokens, keeping the tokens, and each part that
 * holds a token becomes the picture of sheep N; every other part stays text.
 */
module Explanation {
  import opened Wrappers
  import opened Text

  /** The literal that opens a token. */
  const TokenOpen: string := "[sheep-"

  /** A whole token, as `/^\[sheep-\d+\]$/` accepts it: `[sheep-`, one or more digits, `]`. */
  predicate IsToken(t: string) {
    |t| > |TokenOpen| + 1 && t[..|TokenOpen|] == TokenOpen && t[|t| - 1] == ']'
    && forall k :: |TokenOpen| <= k < |t| - 1 ==> IsDigit(t[k])
  }

  /** The N of a token `[sheep-N]` (the regular expression's group 1). */
  function TokenNumber(t: string): (n: string)
    requires IsToken(t)
    ensures Digits(n) && t == TokenOpen + n + "]"
  {
    assert t == t[..|TokenOpen|] + t[|TokenOpen|..|t| - 1] + [t[|t| - 1]];
    t[|TokenOpen|..|t| - 1]
  }

  /** The length of the run of digits that starts at `i` (`\d+` taken greedily). */
  function DigitRun(s: string, i: nat): (r: nat)
    requires i <= |s|
    ensures i + r <= |s|
    ensures forall k :: i <= k < i + r ==> IsDigit(s[k])
    ensures i + r < |s| ==> !IsDigit(s[i + r])
    decreases |s| - i
  {
    if i < |s| && IsDigit(s[i]) then 1 + DigitRun(s, i + 1) else 0
  }

  /** A run of digits that a non-digit (or the end) closes is exactly what `DigitRun` measures. */
  lemma {:induction false} DigitRunIs(s: string, i: nat, j: nat)
    requires i <= j <= |s|
    requires forall k :: i <= k < j ==> IsDigit(s[k])
    requires j < |s| ==> !IsDigit(s[j])
    ensures DigitRun(s, i) == j - i
    decreases j - i
  {
    if i < j {
      DigitRunIs(s, i + 1, j);
    }
  }

  /**
   * The regular expression `\[sheep-\d+\]` tried at position `i`: the length
   * of the token that starts there, if one does. The greedy digit run can
   * only be followed by `]` in full, so no backtracking changes the match.
   */
  function TokenAt(s: string, i: nat): (r: Option<nat>)
    requires i <= |s|
    ensures r.Some? ==> r.value > |TokenOpen| + 1 && i + r.value <= |s|
  {
    if i + |TokenOpen| <= |s| && s[i..i + |TokenOpen|] == TokenOpen then
      var d := DigitRun(s, i + |TokenOpen|);
      if 0 < d && i + |TokenOpen| + d < |s| && s[i + |TokenOpen| + d] == ']' then Some(|TokenOpen| + d + 1)
      else None
    else None
  }

  /** A token of length `n` is found at `i` exactly when the `n` characters there form a whole token. */
  lemma TokenAtMeans(s: string, i: nat, n: nat)
    requires i + n <= |s|
    ensures TokenAt(s, i) == Some(n) <==> IsToken(s[i..i + n])
  {
    var t := s[i..i + n];
    var m := |TokenOpen|;
    if TokenAt(s, i) == Some(n) {
      var u := s[i..i + m];
      assert u == TokenOpen;
      forall k | 0 <= k < m ensures t[k] == u[k] {
        assert t[k] == s[i + k];
      }
      assert t[..m] == u;
      forall k | m <= k < |t| - 1 ensures IsDigit(t[k]) {
        assert t[k] == s[i + k];
      }
    }
    if IsToken(t) {
      var u := s[i..i + m];
      forall k | 0 <= k < m ensures u[k] == t[k] {
        assert t[k] == s[i + k];
      }
      assert u == t[..m];
      forall k | i + m <= k < i + n - 1 ensures IsDigit(s[k]) {
        assert s[k] == t[k - i];
      }
      assert s[i + n - 1] == t[n - 1];
      DigitRunIs(s, i + m, i + n - 1);
    }
  }

  /** No token starts anywhere in `p`. */
  predicate NoToken(p: string) {
    forall j :: 0 <= j <= |p| ==> TokenAt(p, j).None?
  }

  /** A stretch of `s` where no token starts holds no token of its own either. */
  lemma StretchNoToken(s: string, a: nat, b: nat)
    requires a <= b <= |s|
    requires forall j :: a <= j < b ==> TokenAt(s, j).None?
    ensures NoToken(s[a..b])
  {
    var p := s[a..b];
    forall j | 0 <= j <= |p| ensures TokenAt(p, j).None? {
      if TokenAt(p, j).Some? {
        var n := TokenAt(p, j).value;
        TokenAtMeans(p, j, n);
        assert j + n <= |p| && a + j + n <= b;
        var u, v := p[j..j + n], s[a + j..a + j + n];
        forall k | 0 <= k < n ensures u[k] == v[k] {
          assert u[k] == p[j + k] == s[a + j + k];
        }
        assert u == v;
        TokenAtMeans(s, a + j, n);
        assert false;
      }
    }
  }

  // ----- Splitting -----

  /**
   * `explanation.split(/(\[sheep-\d+\])/)`, scanning from `i` with the
   * current stretch of text begun at `start`: text, token, text, ..., text.
   * The captured tokens stay in the list; texts may be empty.
   */
  function SplitFrom(s: string, start: nat, i: nat): seq<string>
    requires start <= i <= |s|
    decreases |s| - i
  {
    if i == |s| then [s[start..]]
    else match TokenAt(s, i)
      case Some(n) => [s[start..i], s[i..i + n]] + SplitFrom(s, i + n, i + n)
      case None => SplitFrom(s, start, i + 1)
  }

  function Split(s: string): seq<string> {
    SplitFrom(s, 0, 0)
  }

  /** `parts.join('')` */
  function Join(parts: seq<string>): string {
    if parts == [] then "" else parts[0] + Join(parts[1..])
  }

  /** A text and a token before parts that join to the rest of `s` join to the text from `start`. */
  lemma JoinStep(s: string, start: nat, i: nat, n: nat, rest: seq<string>)
    requires start <= i <= i + n <= |s| && Join(rest) == s[i + n..]
    ensures Join([s[start..i], s[i..i + n]] + rest) == s[start..]
  {
    var parts := [s[start..i], s[i..i + n]] + rest;
    assert parts[1..] == [s[i..i + n]] + rest;
    assert parts[1..][1..] == rest;
    assert s[start..] == s[start..i] + (s[i..i + n] + s[i + n..]);
  }

  /** Joining the parts of a scan gives back the text from where it began. */
  lemma {:induction false} SplitFromJoin(s: string, start: nat, i: nat)
    requires start <= i <= |s|
    ensures Join(SplitFrom(s, start, i)) == s[start..]
    decreases |s| - i
  {
    if i == |s| {
      assert SplitFrom(s, start, i) == [s[start..]];
      assert [s[start..]][1..] == [];
    } else {
      match TokenAt(s, i)
      case Some(n) =>
        var rest := SplitFrom(s, i + n, i + n);
        assert SplitFrom(s, start, i) == [s[start..i], s[i..i + n]] + rest;
        SplitFromJoin(s, i + n, i + n);
        JoinStep(s, start, i, n, rest);
      case None =>
        assert SplitFrom(s, start, i) == SplitFrom(s, start, i + 1);
        SplitFromJoin(s, start, i + 1);
    }
  }

  /** Text at the even places, a whole token at the odd ones, and the list ends with text. */
  predicate Alternates(parts: seq<string>) {
    |parts| % 2 == 1
    && (forall k :: 0 <= k < |parts| && k % 2 == 0 ==> NoToken(parts[k]))
    && (forall k :: 0 <= k < |parts| && k % 2 == 1 ==> IsToken(parts[k]))
  }

  /** A text and a token before an alternating list make an alternating list. */
  lemma AlternatesCons(text: string, token: string, rest: seq<string>)
    requires NoToken(text) && IsToken(token) && Alternates(rest)
    ensures Alternates([text, token] + rest)
  {
    var parts := [text, token] + rest;
    forall k | 2 <= k < |parts| ensures parts[k] == rest[k - 2] && k % 2 == (k - 2) % 2 {
    }
  }

  /** A scan that meets a token at `i` gives the text gathered so far, the token, then the scan after it. */
  lemma SplitAtToken(s: string, start: nat, i: nat, n: nat)
    requires start <= i < |s| && TokenAt(s, i) == Some(n)
    ensures SplitFrom(s, start, i) == [s[start..i], s[i..i + n]] + SplitFrom(s, i + n, i + n)
  {
  }

  /** Such a scan alternates when the scan after the token does. */
  lemma TokenStepAlternates(s: string, start: nat, i: nat, n: nat)
    requires start <= i < |s| && TokenAt(s, i) == Some(n)
    requires forall j :: start <= j < i ==> TokenAt(s, j).None?
    requires Alternates(SplitFrom(s, i + n, i + n))
    ensures Alternates(SplitFrom(s, start, i))
  {
    var rest := SplitFrom(s, i + n, i + n);
    SplitAtToken(s, start, i, n);
    StretchNoToken(s, start, i);
    TokenAtMeans(s, i, n);
    AlternatesCons(s[start..i], s[i..i + n], rest);
  }

  /** Each scan alternates, given that no token starts in the text gathered so far. */
  lemma {:induction false} SplitFromAlternates(s: string, start: nat, i: nat)
    requires start <= i <= |s|
    requires forall j :: start <= j < i ==> TokenAt(s, j).None?
    ensures Alternates(SplitFrom(s, start, i))
    decreases |s| - i
  {
    if i == |s| {
      StretchNoToken(s, start, i);
      assert s[start..i] == s[start..];
      assert SplitFrom(s, start, i) == [s[start..]];
    } else {
      var t := TokenAt(s, i);
      if t.Some? {
        SplitFromAlternates(s, i + t.value, i + t.value);
        TokenStepAlternates(s, start, i, t.value);
      } else {
        assert SplitFrom(s, start, i) == SplitFrom(s, start, i + 1);
        SplitFromAlternates(s, start, i + 1);
      }
    }
  }

  /**
   * The split gives back the text when joined, and alternates: texts with
   * no token in them, and between them the tokens, each whole.
   */
  lemma SplitMeans(s: string)
    ensures Join(Split(s)) == s
    ensures Alternates(Split(s))
  {
    SplitFromJoin(s, 0, 0);
    SplitFromAlternates(s, 0, 0);
  }

  // ----- Rendering -----

  /** A rendered part: plain text, or the picture `/sheep-assets/sheep-${number}.svg`. */
  datatype Piece = Words(text: string) | SheepPicture(number: string)

  /** `part.match(/\[sheep-(\d+)\]/)`: where the first token in `p` at or after `j` starts, and its length. */
  function FirstToken(p: string, j: nat): (r: Option<(nat, nat)>)
    requires j <= |p|
    ensures r.Some? ==> r.value.0 <= |p| && TokenAt(p, r.value.0) == Some(r.value.1)
    ensures r.None? <==> forall k :: j <= k <= |p| ==> TokenAt(p, k).None?
    decreases |p| - j
  {
    match TokenAt(p, j)
    case Some(n) => Some((j, n))
    case None => if j == |p| then None else FirstToken(p, j + 1)
  }

  /** One part of the split, rendered: the picture of the matched token's sheep, or the text itself. */
  function RenderPart(p: string): Piece {
    match FirstToken(p, 0)
    case Some((at, n)) =>
      TokenAtMeans(p, at, n);
      SheepPicture(TokenNumber(p[at..at + n]))
    case None => Words(p)
  }

  /** renderExplanationWithSheep: the parts of the split, each rendered. */
  function RenderExplanationWithSheep(explanation: string): (r: seq<Piece>)
    ensures |r| == |Split(explanation)|
  {
    var parts := Split(explanation);
    seq(|parts|, k requires 0 <= k < |parts| => RenderPart(parts[k]))
  }

  /** The text a rendered piece shows: its words, or the token its picture stands for. */
  function Shown(piece: Piece): string {
    match piece
    case Words(text) => text
    case SheepPicture(number) => TokenOpen + number + "]"
  }

  /** The rendered pieces, read back one after the other. */
  function ReadBack(pieces: seq<Piece>): string {
    if pieces == [] then "" else Shown(pieces[0]) + ReadBack(pieces[1..])
  }

  /** Reading back the pieces of parts gives the parts joined, when each piece shows its own part. */
  lemma {:induction false} ReadBackJoin(pieces: seq<Piece>, parts: seq<string>)
    requires |pieces| == |parts| && forall k :: 0 <= k < |parts| ==> Shown(pieces[k]) == parts[k]
    ensures ReadBack(pieces) == Join(parts)
  {
    if parts != [] {
      ReadBackJoin(pieces[1..], parts[1..]);
    }
  }

  /**
   * Exactly the token parts become pictures, each of the sheep its token
   * names, and every other part stays as its text; so reading the pieces
   * back gives the explanation.
   */
  lemma RenderMeans(explanation: string)
    ensures var parts, r := Split(explanation), RenderExplanationWithSheep(explanation);
            |r| % 2 == 1
            && (forall k :: 0 <= k < |r| ==> (r[k].SheepPicture? <==> k % 2 == 1))
            && (forall k :: 0 <= k < |r| && k % 2 == 1 ==>
                  Digits(r[k].number) && parts[k] == TokenOpen + r[k].number + "]")
            && (forall k :: 0 <= k < |r| && k % 2 == 0 ==> r[k] == Words(parts[k]))
            && ReadBack(r) == explanation
  {
    var parts, r := Split(explanation), RenderExplanationWithSheep(explanation);
    SplitMeans(explanation);
    forall k | 0 <= k < |r| ensures Shown(r[k]) == parts[k] && (r[k].SheepPicture? <==> k % 2 == 1) {
      if k % 2 == 1 {
        TokenAtMeans(parts[k], 0, |parts[k]|);
        assert parts[k][0..|parts[k]|] == parts[k];
      }
    }
    ReadBackJoin(r, parts);
  }
}
