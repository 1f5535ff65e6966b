/**
 * Device detection (detectMobile and the value bindEvents leaves in
 * isMobile) and the test that decides whether a tap may unlock audio.
 */
module Platform {

  /** Substrings of the user-agent test, lower-cased: the regular expression is case-insensitive. */
  const MobileTokens: seq<string> :=
    ["android", "webos", "iphone", "ipad", "ipod", "blackberry", "iemobile", "opera mini"]

  /** Widths at or below this count as mobile in detectMobile. */
  const MobileMaxWidth: int := 768

  function LowerChar(ch: char): char
  {
    if 'A' <= ch <= 'Z' then (ch as int + 32) as char else ch
  }

  function Lower(s: string): (r: string)
    ensures |r| == |s|
    ensures forall i :: 0 <= i < |s| ==> r[i] == LowerChar(s[i])
  {
    if s == [] then [] else [LowerChar(s[0])] + Lower(s[1..])
  }

  /** `t` occurs in `s` starting at index `i`. */
  predicate OccursAt(s: string, t: string, i: nat)
  {
    i + |t| <= |s| && s[i..i + |t|] == t
  }

  /** Substring search, scanning `s` from the left. */
  function Contains(s: string, t: string): bool
    decreases |s|
  {
    if |t| > |s| then false
    else if s[..|t|] == t then true
    else Contains(s[1..], t)
  }

  /** An occurrence in the tail is an occurrence one place further right in the whole. */
  lemma OccursInTail(s: string, t: string, i: nat)
    requires |s| > 0
    ensures OccursAt(s[1..], t, i) <==> OccursAt(s, t, i + 1)
  {
    if i + 1 + |t| <= |s| {
      assert s[1..][i..i + |t|] == s[i + 1..i + 1 + |t|];
    }
  }

  lemma {:induction false} ContainsIffOccurs(s: string, t: string)
    ensures Contains(s, t) <==> exists i: nat :: OccursAt(s, t, i)
    decreases |s|
  {
    if |t| > |s| {
      forall i: nat
        ensures !OccursAt(s, t, i)
      {
      }
    } else if s[..|t|] == t {
      assert OccursAt(s, t, 0);
    } else {
      ContainsIffOccurs(s[1..], t);
      if exists i: nat :: OccursAt(s, t, i) {
        var i: nat :| OccursAt(s, t, i);
        assert i != 0;
        OccursInTail(s, t, i - 1);
      }
      if exists i: nat :: OccursAt(s[1..], t, i) {
        var i: nat :| OccursAt(s[1..], t, i);
        OccursInTail(s, t, i);
      }
    }
  }

  /** The user-agent half of detectMobile (and all of the test bindEvents applies). */
  predicate UserAgentIsMobile(ua: string)
  {
    exists tok :: tok in MobileTokens && Contains(Lower(ua), tok)
  }

  /** detectMobile: a mobile user agent or a narrow window. */
  predicate DetectMobile(ua: string, innerWidth: int)
  {
    UserAgentIsMobile(ua) || innerWidth <= MobileMaxWidth
  }

  /**
   * isMobile once the constructor has run: detectMobile's value, overwritten
   * by bindEvents with the user-agent test alone unless the enter button is
   * missing, in which case bindEvents returns before the overwrite.
   */
  function ResolveIsMobile(ua: string, innerWidth: int, enterButtonFound: bool): (m: bool)
    ensures m ==> DetectMobile(ua, innerWidth)
    ensures enterButtonFound ==> (m <==> UserAgentIsMobile(ua))
    ensures !enterButtonFound ==> (m <==> DetectMobile(ua, innerWidth))
  {
    var detected := DetectMobile(ua, innerWidth);
    if !enterButtonFound then detected else UserAgentIsMobile(ua)
  }

  /** A narrow desktop window counts as mobile for detectMobile but not once bindEvents has run. */
  lemma NarrowDesktopWindow(ua: string, innerWidth: int)
    requires !UserAgentIsMobile(ua) && innerWidth <= MobileMaxWidth
    ensures DetectMobile(ua, innerWidth)
    ensures !ResolveIsMobile(ua, innerWidth, true)
    ensures ResolveIsMobile(ua, innerWidth, false)
  {
  }

  /** A user agent with a token anywhere in it, in any letter case, is mobile whatever the window width. */
  lemma TokenMakesMobile(ua: string, tok: string, i: nat, innerWidth: int, enterButtonFound: bool)
    requires tok in MobileTokens && OccursAt(Lower(ua), tok, i)
    ensures UserAgentIsMobile(ua)
    ensures ResolveIsMobile(ua, innerWidth, enterButtonFound)
  {
    ContainsIffOccurs(Lower(ua), tok);
  }

  /** A DOM element as `closest` sees it: its id, its tag name and its classes. */
  datatype Element = Element(id: string, tag: string, classes: set<string>)

  /** The element an event hit, and its ancestors from the parent outwards. */
  datatype Target = Target(self: Element, ancestors: seq<Element>)

  /** The simple selectors the handler passes to `closest`. */
  datatype Selector = ById(id: string) | ByTag(tag: string) | ByClass(name: string)

  predicate Matches(e: Element, sel: Selector)
  {
    match sel
    case ById(id) => e.id == id
    case ByTag(tag) => e.tag == tag
    case ByClass(name) => name in e.classes
  }

  /** `closest(sel)`: the element itself or some ancestor matches. */
  predicate Closest(t: Target, sel: Selector)
  {
    Matches(t.self, sel) || exists k :: 0 <= k < |t.ancestors| && Matches(t.ancestors[k], sel)
  }

  /** The isValidTarget disjunction of the unlock handler. */
  predicate IsValidTarget(t: Target)
  {
    t.self.id == "enterButton"
    || Closest(t, ById("enterButton"))
    || Closest(t, ByTag("button"))
    || Closest(t, ByClass("music-button"))
    || Closest(t, ByClass("share-button"))
    || Closest(t, ByClass("repeat-button"))
  }

  /** An element that one of the handler's selectors accepts. */
  predicate IsControl(e: Element)
  {
    e.id == "enterButton" || e.tag == "button"
    || "music-button" in e.classes || "share-button" in e.classes || "repeat-button" in e.classes
  }

  /** A tap qualifies exactly when it lands on or inside a control. */
  lemma ValidTargetIffInsideControl(t: Target)
    ensures IsValidTarget(t) <==> IsControl(t.self) || exists k :: 0 <= k < |t.ancestors| && IsControl(t.ancestors[k])
  {
  }
}
