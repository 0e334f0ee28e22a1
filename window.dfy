/**
 * GameWindowAction._get_window_handle: choosing the game window from the
 * top-level windows the OS enumerates. FindWindow, IsWindow, IsWindowVisible,
 * GetWindowText and EnumWindows are replaced by one list of window records in
 * enumeration order.
 */
module WindowResolver {
  import opened Text

  /** One top-level window as the OS reports it. */
  datatype Window = Window(hwnd: int, title: string, visible: bool)

  /** WINDOW_TITLE_KEYWORDS, in the order the exact search tries them. */
  const TitleKeywords: seq<string> := ["二重螺旋", "Duet Night Abyss"]

  predicate OccursAt(sub: string, s: string, i: int) {
    0 <= i && i + |sub| <= |s| && s[i..i + |sub|] == sub
  }

  /** Python's `sub in s` on strings. */
  predicate Contains(s: string, sub: string) {
    exists i :: 0 <= i <= |s| - |sub| && OccursAt(sub, s, i)
  }

  /** Some keyword, in any position of the list, is a substring of the title. */
  predicate ContainsAny(title: string, keywords: seq<string>) {
    exists k :: 0 <= k < |keywords| && Contains(title, keywords[k])
  }

  /**
   * Position of the first window whose title is `title` up to the case of its
   * letters (window names are compared without regard to case); |ws| when
   * there is none.
   */
  function FirstTitled(ws: seq<Window>, title: string): (k: nat)
    ensures k <= |ws|
    ensures k < |ws| ==> EqualIgnoringCase(ws[k].title, title)
    ensures forall j :: 0 <= j < k ==> !EqualIgnoringCase(ws[j].title, title)
  {
    if ws == [] then 0
    else if EqualIgnoringCase(ws[0].title, title) then 0
    else 1 + FirstTitled(ws[1..], title)
  }

  /** `FindWindow(None, title)`: the handle of the first window with that title, in any letter case, or 0. */
  function FindWindow(ws: seq<Window>, title: string): int {
    var k := FirstTitled(ws, title);
    if k < |ws| then ws[k].hwnd else 0
  }

  /** Position of the first keyword whose exact lookup gives a non-zero handle; |keywords| when none does. */
  function FirstExact(ws: seq<Window>, keywords: seq<string>): (k: nat)
    ensures k <= |keywords|
    ensures k < |keywords| ==> FindWindow(ws, keywords[k]) != 0
    ensures forall j :: 0 <= j < k ==> FindWindow(ws, keywords[j]) == 0
  {
    if keywords == [] then 0
    else if FindWindow(ws, keywords[0]) != 0 then 0
    else 1 + FirstExact(ws, keywords[1..])
  }

  /** The windows the enumeration callback records: visible, with some keyword in the title. */
  predicate Candidate(w: Window, keywords: seq<string>) {
    w.visible && ContainsAny(w.title, keywords)
  }

  /** Position of the first window, in enumeration order, that the callback records; |ws| when none. */
  function FirstCandidate(ws: seq<Window>, keywords: seq<string>): (k: nat)
    ensures k <= |ws|
    ensures k < |ws| ==> Candidate(ws[k], keywords)
    ensures forall j :: 0 <= j < k ==> !Candidate(ws[j], keywords)
  {
    if ws == [] then 0
    else if Candidate(ws[0], keywords) then 0
    else 1 + FirstCandidate(ws[1..], keywords)
  }

  /**
   * The handle `_get_window_handle` returns for these windows and keywords: an
   * exact match for the earliest keyword that has a live one, otherwise the
   * first visible window whose title contains a keyword, otherwise 0.
   */
  function ResolveWith(ws: seq<Window>, keywords: seq<string>): (h: int)
    // an exact match for the earliest keyword that has one wins, whatever the substring search would find
    ensures (exists k :: 0 <= k < |keywords| && FindWindow(ws, keywords[k]) != 0) ==>
              exists k :: 0 <= k < |keywords| && h == FindWindow(ws, keywords[k]) && h != 0
                          && forall j :: 0 <= j < k ==> FindWindow(ws, keywords[j]) == 0
    // otherwise the first recorded window of the enumeration, never an invisible one
    ensures (forall k :: 0 <= k < |keywords| ==> FindWindow(ws, keywords[k]) == 0) ==>
              ((exists i :: 0 <= i < |ws| && Candidate(ws[i], keywords)) ==>
                 exists i :: 0 <= i < |ws| && h == ws[i].hwnd && ws[i].visible && ContainsAny(ws[i].title, keywords)
                             && forall j :: 0 <= j < i ==> !Candidate(ws[j], keywords))
    // and 0 when neither search finds anything
    ensures ((forall k :: 0 <= k < |keywords| ==> FindWindow(ws, keywords[k]) == 0)
             && (forall i :: 0 <= i < |ws| ==> !Candidate(ws[i], keywords))) ==> h == 0
  {
    var e := FirstExact(ws, keywords);
    if e < |keywords| then FindWindow(ws, keywords[e])
    else
      var c := FirstCandidate(ws, keywords);
      if c < |ws| then ws[c].hwnd else 0
  }

  /** `_get_window_handle` with the game's own title keywords. */
  function Resolve(ws: seq<Window>): int {
    ResolveWith(ws, TitleKeywords)
  }

  /**
   * A window titled exactly with a keyword is chosen even when an earlier
   * window merely contains that keyword: here the first window's title contains
   * "Duet Night Abyss" but only the second one is titled exactly so.
   */
  lemma ExactMatchBeatsSubstring()
    ensures Resolve([Window(7, "Duet Night Abyss - launcher", true), Window(9, "Duet Night Abyss", true)]) == 9
  {
    var ws := [Window(7, "Duet Night Abyss - launcher", true), Window(9, "Duet Night Abyss", true)];
    assert |ws[0].title| != |TitleKeywords[0]|;
    assert |ws[1].title| != |TitleKeywords[0]|;
    assert FindWindow(ws, TitleKeywords[0]) == 0;
    assert |ws[0].title| != |TitleKeywords[1]|;
    assert FindWindow(ws, TitleKeywords[1]) == 9;
  }

  /** Without an exact title, the first visible window containing a keyword is chosen; invisible ones are skipped. */
  lemma SubstringSkipsInvisible()
    ensures Resolve([Window(3, "Duet Night Abyss (hidden)", false), Window(5, "二重螺旋 v1.0", true)]) == 5
  {
    var ws := [Window(3, "Duet Night Abyss (hidden)", false), Window(5, "二重螺旋 v1.0", true)];
    assert |ws[0].title| != |TitleKeywords[0]|;
    assert |ws[1].title| != |TitleKeywords[0]|;
    assert |ws[0].title| != |TitleKeywords[1]|;
    assert |ws[1].title| != |TitleKeywords[1]|;
    assert OccursAt(TitleKeywords[0], ws[1].title, 0);
    assert Contains(ws[1].title, TitleKeywords[0]);
    assert Candidate(ws[1], TitleKeywords);
  }

  /**
   * The exact search ignores letter case: a window titled "duet night abyss"
   * is found by the keyword "Duet Night Abyss", although the case-sensitive
   * substring search would not find it.
   */
  lemma ExactMatchIgnoresCase()
    ensures Resolve([Window(5, "duet night abyss", true)]) == 5
    ensures !Candidate(Window(5, "duet night abyss", true), TitleKeywords)
  {
    var w := Window(5, "duet night abyss", true);
    assert |w.title| != |TitleKeywords[0]|;
    assert FindWindow([w], TitleKeywords[0]) == 0;
    assert forall k :: 0 <= k < |w.title| ==> AsciiLowerChar(w.title[k]) == AsciiLowerChar(TitleKeywords[1][k]);
    assert FindWindow([w], TitleKeywords[1]) == 5;
    forall k, i | 0 <= k < |TitleKeywords| && 0 <= i <= |w.title| - |TitleKeywords[k]|
      ensures !OccursAt(TitleKeywords[k], w.title, i)
    {
      if k == 0 {
        assert w.title[i..i + |TitleKeywords[k]|][0] != TitleKeywords[k][0];
      } else {
        assert i == 0;
        assert w.title[0] != TitleKeywords[k][0];
      }
    }
  }
}
