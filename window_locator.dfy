/** Finding the browser's top-level window by a substring of its title
    (`find_hwnd`). The operating system's enumeration of top-level windows is
    an input: a sequence of records in enumeration order. */
module WindowLocator {
  import opened Wrappers

  /** One enumerated top-level window: its handle, whether it is visible and
      its title text ("" for a window without a title). A window whose
      visibility or title cannot be read is skipped by the scan; it is
      modelled as a record with `visible` false. */
  datatype TopLevelWindow = TopLevelWindow(handle: int, visible: bool, title: string)

  /** ASCII lower-case folding of one character. */
  function LowerChar(c: char): char {
    if 'A' <= c <= 'Z' then (c as int + 32) as char else c
  }

  /** ASCII lower-case folding of a string (Python's `str.lower` on ASCII). */
  function Lower(s: string): string {
    seq(|s|, i requires 0 <= i < |s| => LowerChar(s[i]))
  }

  /** Python's `needle in hay` on strings. */
  predicate SubstringOf(needle: string, hay: string) {
    exists i :: 0 <= i <= |hay| - |needle| && needle <= hay[i..]
  }

  /** A window the scan accepts: visible, and its lower-cased title contains
      the lower-cased substring. */
  predicate Matches(w: TopLevelWindow, sub: string) {
    w.visible && SubstringOf(Lower(sub), Lower(w.title))
  }

  /** The reference result: the handle of the last matching window. */
  function LastMatch(ws: seq<TopLevelWindow>, sub: string): Option<int> {
    if ws == [] then None
    else if Matches(ws[|ws| - 1], sub) then Some(ws[|ws| - 1].handle)
    else LastMatch(ws[..|ws| - 1], sub)
  }

  /** LastMatch is Some exactly when some window matches, and then it is the
      handle of a matching window after which no window matches. */
  lemma {:induction false} LastMatchIsLast(ws: seq<TopLevelWindow>, sub: string)
    ensures LastMatch(ws, sub).Some? <==> exists i :: 0 <= i < |ws| && Matches(ws[i], sub)
    ensures LastMatch(ws, sub).Some? ==>
      exists i :: 0 <= i < |ws| && Matches(ws[i], sub) && ws[i].handle == LastMatch(ws, sub).value &&
        forall j :: i < j < |ws| ==> !Matches(ws[j], sub)
  {
    if ws != [] {
      var n := |ws| - 1;
      var front := ws[..n];
      LastMatchIsLast(front, sub);
      if !Matches(ws[n], sub) {
        assert forall i :: 0 <= i < n ==> front[i] == ws[i];
        if LastMatch(ws, sub).Some? {
          var i :| 0 <= i < |front| && Matches(front[i], sub) && front[i].handle == LastMatch(front, sub).value &&
            forall j :: i < j < |front| ==> !Matches(front[j], sub);
          assert forall j :: i < j < |ws| ==> !Matches(ws[j], sub) by {
            forall j | i < j < |ws| ensures !Matches(ws[j], sub) {
              if j < n { assert ws[j] == front[j]; }
            }
          }
        } else {
          assert forall i :: 0 <= i < |ws| ==> !Matches(ws[i], sub) by {
            forall i | 0 <= i < |ws| ensures !Matches(ws[i], sub) {
              if i < n { assert ws[i] == front[i]; }
            }
          }
        }
      }
    }
  }

  /** `find_hwnd`: one pass over the enumeration; every visible window whose
      title contains the substring overwrites the result, so the last one wins. */
  method FindHwnd(ws: seq<TopLevelWindow>, titleSubstring: string) returns (result: Option<int>)
    ensures result == LastMatch(ws, titleSubstring)
    ensures result.None? <==> forall i :: 0 <= i < |ws| ==> !Matches(ws[i], titleSubstring)
    ensures result.Some? ==>
      exists i :: 0 <= i < |ws| && Matches(ws[i], titleSubstring) && ws[i].handle == result.value &&
        forall j :: i < j < |ws| ==> !Matches(ws[j], titleSubstring)
  {
    result := None;
    var sub := Lower(titleSubstring);
    for i := 0 to |ws|
      invariant result == LastMatch(ws[..i], titleSubstring)
    {
      var w := ws[i];
      assert ws[..i + 1][..i] == ws[..i];
      if !w.visible {
        continue;
      }
      var t := w.title;
      if SubstringOf(sub, Lower(t)) {
        result := Some(w.handle);
      }
    }
    assert ws[..|ws|] == ws;
    LastMatchIsLast(ws, titleSubstring);
  }

  /** Folding twice is folding once. */
  lemma LowerIdempotent(s: string)
    ensures Lower(Lower(s)) == Lower(s)
  {
  }

  /** The result depends on the substring only through its lower-cased form,
      so the letter case of the substring does not matter. */
  lemma {:induction false} LastMatchIgnoresCase(ws: seq<TopLevelWindow>, a: string, b: string)
    requires Lower(a) == Lower(b)
    ensures LastMatch(ws, a) == LastMatch(ws, b)
  {
    if ws != [] {
      LastMatchIgnoresCase(ws[..|ws| - 1], a, b);
    }
  }

  /** In particular, searching for the lower-cased substring gives the same result. */
  lemma LastMatchOfLowered(ws: seq<TopLevelWindow>, sub: string)
    ensures LastMatch(ws, Lower(sub)) == LastMatch(ws, sub)
  {
    LowerIdempotent(sub);
    LastMatchIgnoresCase(ws, Lower(sub), sub);
  }

  /** The visible windows of an enumeration, in order. */
  function VisibleOnly(ws: seq<TopLevelWindow>): seq<TopLevelWindow> {
    if ws == [] then []
    else VisibleOnly(ws[..|ws| - 1]) + (if ws[|ws| - 1].visible then [ws[|ws| - 1]] else [])
  }

  /** Invisible windows never match: dropping them all leaves the result unchanged. */
  lemma {:induction false} InvisibleWindowsIgnored(ws: seq<TopLevelWindow>, sub: string)
    ensures LastMatch(VisibleOnly(ws), sub) == LastMatch(ws, sub)
  {
    if ws != [] {
      var front := ws[..|ws| - 1];
      InvisibleWindowsIgnored(front, sub);
      var w := ws[|ws| - 1];
      if w.visible {
        var v := VisibleOnly(front) + [w];
        assert v[..|v| - 1] == VisibleOnly(front);
      } else {
        assert VisibleOnly(ws) == VisibleOnly(front);
      }
    }
  }

  /** When several windows match, the later one wins: a matching window
      followed only by non-matching ones is the result, whatever matches
      came before it. */
  lemma LaterMatchWins(ws: seq<TopLevelWindow>, sub: string, i: int, j: int)
    requires 0 <= i < j < |ws| && Matches(ws[i], sub) && Matches(ws[j], sub)
    requires forall k :: j < k < |ws| ==> !Matches(ws[k], sub)
    ensures LastMatch(ws, sub) == Some(ws[j].handle)
    ensures LastMatch(ws, sub) != Some(ws[i].handle) || ws[i].handle == ws[j].handle
  {
    LastMatchIsLast(ws, sub);
    var m :| 0 <= m < |ws| && Matches(ws[m], sub) && ws[m].handle == LastMatch(ws, sub).value &&
      forall k :: m < k < |ws| ==> !Matches(ws[k], sub);
    assert m == j;
  }

  /** Two visible windows whose titles both contain the substring: the
      second one's handle is returned, not the first one's. */
  lemma LaterMatchWinsExample()
    ensures LastMatch([TopLevelWindow(1, true, "Live - Chrome"), TopLevelWindow(2, true, "LIVE room")], "live") == Some(2)
  {
    var ws := [TopLevelWindow(1, true, "Live - Chrome"), TopLevelWindow(2, true, "LIVE room")];
    assert Lower("live") <= Lower(ws[1].title)[0..];
  }
}
