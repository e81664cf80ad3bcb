/** Account-ID shapes (costpuller.go `accountIdPatterns`): Amazon IDs are
    three groups of four decimal digits, Azure IDs are five groups of 8, 4, 4,
    4 and 12 lower-case hexadecimal digits. In the accounts file each hyphen
    between groups is optional; the directory key always has them, which is the
    form Cloudability reports. */
module AccountIds {
  import opened Wrappers
  import opened Text

  datatype CharClass = Decimal | LowerHex

  /** A fixed-width ID shape: the width of each group and the characters allowed. */
  datatype IdPattern = IdPattern(widths: seq<nat>, chars: CharClass)

  predicate InClass(c: char, k: CharClass) {
    match k
    case Decimal => '0' <= c <= '9'
    case LowerHex => '0' <= c <= '9' || 'a' <= c <= 'f'
  }

  predicate AllInClass(s: string, k: CharClass) {
    forall i :: 0 <= i < |s| ==> InClass(s[i], k)
  }

  predicate PositiveWidths(widths: seq<nat>) {
    forall i :: 0 <= i < |widths| ==> widths[i] > 0
  }

  /** The provider names that have a fixed ID shape, and their shapes. */
  function PatternFor(provider: string): (p: Option<IdPattern>)
    ensures p.Some? ==> |p.value.widths| > 0 && PositiveWidths(p.value.widths)
  {
    if provider == "Amazon" then Some(IdPattern([4, 4, 4], Decimal))
    else if provider == "Azure" then Some(IdPattern([8, 4, 4, 4, 12], LowerHex))
    else None
  }

  /** The capture groups of the anchored pattern `^(g1)-?(g2)-?…(gn)$`. A group
      never contains '-', so the optional hyphen is taken exactly when the next
      character is one, and the match is unique. */
  function MatchGroups(s: string, widths: seq<nat>, k: CharClass): Option<seq<string>>
    decreases |widths|
  {
    if |widths| == 0 then (if s == "" then Some([]) else None)
    else if |s| < widths[0] || !AllInClass(s[..widths[0]], k) then None
    else
      var rest := s[widths[0]..];
      var rest' := if |widths| > 1 && |rest| > 0 && rest[0] == '-' then rest[1..] else rest;
      match MatchGroups(rest', widths[1..], k)
      case None => None
      case Some(gs) => Some([s[..widths[0]]] + gs)
  }

  // --------------------------------------------- the shape, stated directly

  /** `gs` are groups of exactly the pattern's widths and characters. */
  predicate Shaped(gs: seq<string>, widths: seq<nat>, k: CharClass) {
    |gs| == |widths| && forall i :: 0 <= i < |gs| ==> |gs[i]| == widths[i] && AllInClass(gs[i], k)
  }

  /** The groups written out with a hyphen after group i exactly when `hs[i]`. */
  function Render(gs: seq<string>, hs: seq<bool>): string
    requires |gs| > 0 && |hs| == |gs| - 1
    decreases |gs|
  {
    if |gs| == 1 then gs[0]
    else gs[0] + (if hs[0] then "-" else "") + Render(gs[1..], hs[1..])
  }

  function AllHyphens(n: nat): (hs: seq<bool>)
    ensures |hs| == n && forall i :: 0 <= i < n ==> hs[i]
  {
    seq(n, _ => true)
  }

  lemma {:induction false} JoinIsFullyHyphenated(gs: seq<string>)
    requires |gs| > 0
    ensures Join(gs, "-") == Render(gs, AllHyphens(|gs| - 1))
    decreases |gs|
  {
    if |gs| > 1 {
      JoinIsFullyHyphenated(gs[1..]);
      assert AllHyphens(|gs| - 1)[1..] == AllHyphens(|gs| - 2);
    }
  }

  lemma {:induction false} RenderStartsWithFirstGroup(gs: seq<string>, hs: seq<bool>)
    requires |gs| > 0 && |hs| == |gs| - 1
    ensures |gs[0]| <= |Render(gs, hs)| && Render(gs, hs)[..|gs[0]|] == gs[0]
  {
  }

  lemma ShapedCons(g: string, gs: seq<string>, widths: seq<nat>, k: CharClass)
    requires |widths| > 0 && |g| == widths[0] && AllInClass(g, k) && Shaped(gs, widths[1..], k)
    ensures Shaped([g] + gs, widths, k)
  {
    var r := [g] + gs;
    forall i | 0 <= i < |r| ensures |r[i]| == widths[i] && AllInClass(r[i], k) {
      if i > 0 {
        assert r[i] == gs[i - 1] && widths[i] == widths[1..][i - 1];
      }
    }
  }

  lemma ShapedTail(gs: seq<string>, widths: seq<nat>, k: CharClass)
    requires |gs| > 0 && Shaped(gs, widths, k)
    ensures Shaped(gs[1..], widths[1..], k)
  {
    forall i | 0 <= i < |gs[1..]| ensures |gs[1..][i]| == widths[1..][i] && AllInClass(gs[1..][i], k) {
      assert gs[1..][i] == gs[i + 1];
    }
  }

  lemma RenderCons(g: string, h: bool, gs: seq<string>, hs: seq<bool>)
    requires |gs| > 0 && |hs| == |gs| - 1
    ensures Render([g] + gs, [h] + hs) == g + (if h then "-" else "") + Render(gs, hs)
  {
    assert ([g] + gs)[1..] == gs && ([h] + hs)[1..] == hs;
  }

  /** Every rendering of well-shaped groups, whatever its hyphens, matches and
      yields those groups. */
  lemma {:induction false} MatchRendered(gs: seq<string>, hs: seq<bool>, widths: seq<nat>, k: CharClass)
    requires |gs| > 0 && |hs| == |gs| - 1
    requires Shaped(gs, widths, k) && PositiveWidths(widths)
    ensures MatchGroups(Render(gs, hs), widths, k) == Some(gs)
    decreases |gs|
  {
    var s := Render(gs, hs);
    RenderStartsWithFirstGroup(gs, hs);
    assert s[..widths[0]] == gs[0];
    if |gs| == 1 {
      assert s[widths[0]..] == "" && widths[1..] == [];
      assert MatchGroups("", widths[1..], k) == Some([]);
      assert AllInClass(s[..widths[0]], k);
      assert gs == [s[..widths[0]]] + [];
    } else {
      var tail := Render(gs[1..], hs[1..]);
      var rest := s[widths[0]..];
      assert rest == (if hs[0] then "-" else "") + tail;
      ShapedTail(gs, widths, k);
      RenderStartsWithFirstGroup(gs[1..], hs[1..]);
      assert tail[0] == gs[1][0] && InClass(gs[1][0], k);
      MatchRendered(gs[1..], hs[1..], widths[1..], k);
      assert [gs[0]] + gs[1..] == gs;
    }
  }

  /** Whatever matches is well-shaped groups. */
  lemma {:induction false} MatchShaped(s: string, widths: seq<nat>, k: CharClass, gs: seq<string>)
    requires MatchGroups(s, widths, k) == Some(gs)
    ensures Shaped(gs, widths, k)
    decreases |widths|
  {
    if |widths| > 0 {
      var w := widths[0];
      var rest := s[w..];
      var rest' := if |widths| > 1 && |rest| > 0 && rest[0] == '-' then rest[1..] else rest;
      var tailGroups := MatchGroups(rest', widths[1..], k).value;
      MatchShaped(rest', widths[1..], k, tailGroups);
      ShapedCons(s[..w], tailGroups, widths, k);
    }
  }

  /** An input that is a group, an optional hyphen and a rendering of more
      groups is the rendering of all of them. */
  lemma RenderPrefixed(s: string, w: nat, hyphen: bool, rest: string, gs: seq<string>, hs: seq<bool>)
    requires w <= |s| && s[w..] == (if hyphen then "-" else "") + rest
    requires |gs| > 0 && |hs| == |gs| - 1 && rest == Render(gs, hs)
    ensures s == Render([s[..w]] + gs, [hyphen] + hs)
  {
    SplitAt(s, w, if hyphen then "-" else "", rest);
    RenderCons(s[..w], hyphen, gs, hs);
  }

  lemma SplitAt(s: string, w: nat, mid: string, rest: string)
    requires w <= |s| && s[w..] == mid + rest
    ensures s == s[..w] + mid + rest
  {
    assert s == s[..w] + s[w..];
  }

  /** Whatever matches is a rendering of the groups it yields, with the
      hyphens `hs` the input has between them. */
  lemma {:induction false} MatchSound(s: string, widths: seq<nat>, k: CharClass, gs: seq<string>)
    returns (hs: seq<bool>)
    requires |widths| > 0
    requires MatchGroups(s, widths, k) == Some(gs)
    ensures Shaped(gs, widths, k)
    ensures |hs| == |gs| - 1 && s == Render(gs, hs)
    decreases |widths|
  {
    MatchShaped(s, widths, k, gs);
    var w := widths[0];
    var rest := s[w..];
    var hyphen := |widths| > 1 && |rest| > 0 && rest[0] == '-';
    var rest' := if hyphen then rest[1..] else rest;
    var tailGroups := MatchGroups(rest', widths[1..], k).value;
    assert gs == [s[..w]] + tailGroups;
    assert s == s[..w] + rest;
    if |widths| == 1 {
      assert tailGroups == [] && rest' == "";
      hs := [];
      assert s == Render(gs, hs);
    } else {
      var hs' := MatchSound(rest', widths[1..], k, tailGroups);
      assert rest == (if hyphen then "-" else "") + rest';
      RenderPrefixed(s, w, hyphen, rest', tailGroups, hs');
      hs := [hyphen] + hs';
    }
  }

  // --------------------------------------------------------- directory keys

  /** The directory key for a declared account: for a provider with a fixed
      shape, its groups joined by hyphens, or a failure naming the shape when
      the ID does not match it; for any other provider, the ID unchanged. */
  function CanonicalKey(provider: string, id: string): Result<string, IdPattern> {
    match PatternFor(provider)
    case None => Success(id)
    case Some(p) =>
      match MatchGroups(id, p.widths, p.chars)
      case None => Failure(p)
      case Some(gs) => Success(Join(gs, "-"))
  }

  /** Any rendering of well-shaped groups is accepted, and its key is the
      groups with every hyphen present. */
  lemma KeyOfRendering(provider: string, gs: seq<string>, hs: seq<bool>)
    requires PatternFor(provider).Some?
    requires Shaped(gs, PatternFor(provider).value.widths, PatternFor(provider).value.chars)
    requires |gs| > 0 && |hs| == |gs| - 1
    ensures CanonicalKey(provider, Render(gs, hs)) == Success(Render(gs, AllHyphens(|gs| - 1)))
  {
    var p := PatternFor(provider).value;
    MatchRendered(gs, hs, p.widths, p.chars);
    JoinIsFullyHyphenated(gs);
  }

  /** An ID of a provider with a fixed shape is accepted exactly when it is the
      shape's groups with each hyphen present or not. */
  lemma CanonicalKeyIff(provider: string, id: string)
    requires PatternFor(provider).Some?
    ensures var p := PatternFor(provider).value;
      CanonicalKey(provider, id).Success? <==>
      exists gs, hs :: Shaped(gs, p.widths, p.chars) && |hs| == |gs| - 1 && id == Render(gs, hs)
  {
    var p := PatternFor(provider).value;
    var m := MatchGroups(id, p.widths, p.chars);
    if m.Some? {
      var hs := MatchSound(id, p.widths, p.chars, m.value);
      assert Shaped(m.value, p.widths, p.chars) && |hs| == |m.value| - 1 && id == Render(m.value, hs);
    } else {
      if gs, hs :| Shaped(gs, p.widths, p.chars) && |hs| == |gs| - 1 && id == Render(gs, hs) {
        KeyOfRendering(provider, gs, hs);
        assert false;
      }
    }
  }

  /** A key is its own key: an already hyphenated ID maps to itself. */
  lemma CanonicalKeyIdempotent(provider: string, id: string)
    requires CanonicalKey(provider, id).Success?
    ensures CanonicalKey(provider, CanonicalKey(provider, id).value) == CanonicalKey(provider, id)
  {
    if p :| PatternFor(provider) == Some(p) {
      var gs := MatchGroups(id, p.widths, p.chars).value;
      var hs := MatchSound(id, p.widths, p.chars, gs);
      JoinIsFullyHyphenated(gs);
      MatchRendered(gs, AllHyphens(|gs| - 1), p.widths, p.chars);
    }
  }

  lemma AmazonExample()
    ensures CanonicalKey("Amazon", "590183857305") == Success("5901-8385-7305")
  {
    var gs := ["5901", "8385", "7305"];
    assert Shaped(gs, [4, 4, 4], Decimal);
    assert "590183857305" == Render(gs, [false, false]);
    KeyOfRendering("Amazon", gs, [false, false]);
    assert Render(gs, AllHyphens(2)) == "5901-8385-7305";
  }

  /** A provider without an account ID pattern keeps every ID as it is. */
  lemma UnpatternedKeepsId(provider: string, id: string)
    requires PatternFor(provider).None?
    ensures CanonicalKey(provider, id) == Success(id)
  {
  }
}
