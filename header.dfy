/**
 * The page header (src/components/Header.tsx): the six navigation tabs, the
 * first four of which make up the mobile bar, the highlight of the active tab,
 * and the avatar initials built from the user's name.
 */
module Header {

  /** `TabType`. */
  datatype Tab = DashboardTab | LogTab | GoalsTab | CommunityTab | ReportsTab | ProfileTab

  datatype NavItem = NavItem(id: Tab, caption: string)

  /** `navItems`, in display order. */
  const NavItems: seq<NavItem> := [
    NavItem(DashboardTab, "Dashboard"),
    NavItem(LogTab, "Log Activity"),
    NavItem(GoalsTab, "Goals"),
    NavItem(CommunityTab, "Community"),
    NavItem(ReportsTab, "Reports"),
    NavItem(ProfileTab, "Profile")]

  /** `navItems.slice(0, 4)`: the mobile bar. */
  function MobileNavItems(): (r: seq<NavItem>)
    ensures |r| == 4
    ensures forall i :: 0 <= i < 4 ==> r[i] == NavItems[i]
  {
    NavItems[..4]
  }

  /** The number of buttons drawn highlighted: those whose id is the active tab. */
  function HighlightCount(items: seq<NavItem>, active: Tab): nat
  {
    if items == [] then 0
    else
      var here := if items[|items| - 1].id == active then 1 else 0;
      HighlightCount(items[..|items| - 1], active) + here
  }

  /** No two items share an id. */
  predicate DistinctIds(items: seq<NavItem>)
  {
    forall i, j :: 0 <= i < j < |items| ==> items[i].id != items[j].id
  }

  /** With distinct ids, exactly one button is highlighted if the active tab is among the items, none otherwise. */
  lemma {:induction false} HighlightCountDistinct(items: seq<NavItem>, active: Tab)
    requires DistinctIds(items)
    ensures HighlightCount(items, active) <= 1
    ensures HighlightCount(items, active) == 1 <==> exists i :: 0 <= i < |items| && items[i].id == active
  {
    if items != [] {
      var p := items[..|items| - 1];
      assert DistinctIds(p);
      HighlightCountDistinct(p, active);
      if exists i :: 0 <= i < |items| && items[i].id == active {
        var i :| 0 <= i < |items| && items[i].id == active;
        if i < |p| {
          assert p[i].id == active;
        }
      }
    }
  }

  /** The desktop bar highlights exactly one tab; the mobile bar one tab, or none for Reports and Profile. */
  lemma ActiveTabHighlight(active: Tab)
    ensures HighlightCount(NavItems, active) == 1
    ensures HighlightCount(MobileNavItems(), active) == (if active in {ReportsTab, ProfileTab} then 0 else 1)
  {
    assert DistinctIds(NavItems);
    HighlightCountDistinct(NavItems, active);
    var m := MobileNavItems();
    assert DistinctIds(m);
    HighlightCountDistinct(m, active);
    var i :| 0 <= i < 6 && NavItems[i].id == active;
    if active !in {ReportsTab, ProfileTab} {
      assert m[i].id == active;
    }
  }

  /** `s.split(' ')`: the pieces between single spaces; always at least one, possibly empty. */
  function Split(s: string): (r: seq<string>)
    ensures |r| >= 1
    ensures forall k :: 0 <= k < |r| ==> ' ' !in r[k]
    decreases |s|
  {
    if s == [] then [""]
    else if s[0] == ' ' then [""] + Split(s[1..])
    else
      var rest := Split(s[1..]);
      [[s[0]] + rest[0]] + rest[1..]
  }

  /** `parts.join(' ')`. */
  function Join(parts: seq<string>): string
    requires |parts| >= 1
  {
    if |parts| == 1 then parts[0] else parts[0] + " " + Join(parts[1..])
  }

  /** Joining the pieces with single spaces gives back the name. */
  lemma {:induction false} JoinSplit(s: string)
    ensures Join(Split(s)) == s
    decreases |s|
  {
    if s != [] {
      JoinSplit(s[1..]);
      var rest := Split(s[1..]);
      if s[0] == ' ' {
        assert ([""] + rest)[1..] == rest;
      } else {
        var r := [[s[0]] + rest[0]] + rest[1..];
        assert r[1..] == rest[1..];
        if |rest| > 1 {
          assert Join(r) == ([s[0]] + rest[0]) + " " + Join(rest[1..]);
        }
      }
    }
  }

  /** The number of spaces in `s`. */
  function SpaceCount(s: string): nat
  {
    if s == [] then 0 else (if s[0] == ' ' then 1 else 0) + SpaceCount(s[1..])
  }

  /** There is one more piece than there are spaces. */
  lemma {:induction false} SplitCount(s: string)
    ensures |Split(s)| == SpaceCount(s) + 1
    decreases |s|
  {
    if s != [] {
      SplitCount(s[1..]);
    }
  }

  /** `n[0]` joined with `''`: an empty piece gives `undefined`, which joins as nothing. */
  function FirstLetters(parts: seq<string>): (r: string)
    ensures |r| <= |parts|
    ensures (forall k :: 0 <= k < |parts| ==> parts[k] != "") ==> |r| == |parts|
  {
    if parts == [] then ""
    else (if parts[0] == "" then "" else [parts[0][0]]) + FirstLetters(parts[1..])
  }

  /** `user.name.split(' ').map(n => n[0]).join('')`. */
  function Initials(name: string): (r: string)
    ensures |r| <= SpaceCount(name) + 1
  {
    SplitCount(name);
    FirstLetters(Split(name))
  }

  /** Initials of two runs of pieces are the initials of each, in order; empty pieces add nothing. */
  lemma {:induction false} FirstLettersAppend(p: seq<string>, q: seq<string>)
    ensures FirstLetters(p + q) == FirstLetters(p) + FirstLetters(q)
  {
    if p != [] {
      assert (p + q)[0] == p[0];
      assert (p + q)[1..] == p[1..] + q;
      FirstLettersAppend(p[1..], q);
      var h := if p[0] == "" then "" else [p[0][0]];
      calc {
        FirstLetters(p + q);
        h + FirstLetters(p[1..] + q);
        h + (FirstLetters(p[1..]) + FirstLetters(q));
        (h + FirstLetters(p[1..])) + FirstLetters(q);
        FirstLetters(p) + FirstLetters(q);
      }
    } else {
      assert p + q == q;
    }
  }

  /** When no piece is empty, letter `k` of the initials is the first letter of piece `k`. */
  lemma {:induction false} FirstLettersInOrder(parts: seq<string>, k: int)
    requires forall i :: 0 <= i < |parts| ==> parts[i] != ""
    requires 0 <= k < |parts|
    ensures |FirstLetters(parts)| == |parts|
    ensures FirstLetters(parts)[k] == parts[k][0]
  {
    if k > 0 {
      assert forall i :: 0 <= i < |parts[1..]| ==> parts[1..][i] != "";
      FirstLettersInOrder(parts[1..], k - 1);
      assert parts[1..][k - 1] == parts[k];
    }
  }

  /** For a name without empty pieces, the initials are the pieces' first letters, in order. */
  lemma InitialsInOrder(name: string, k: int)
    requires forall i :: 0 <= i < |Split(name)| ==> Split(name)[i] != ""
    requires 0 <= k < |Split(name)|
    ensures |Initials(name)| == |Split(name)|
    ensures Initials(name)[k] == Split(name)[k][0]
  {
    FirstLettersInOrder(Split(name), k);
  }

  /** Every letter of the initials is the first letter of some piece of the name. */
  lemma {:induction false} FirstLettersAreHeads(parts: seq<string>, c: char)
    requires c in FirstLetters(parts)
    ensures exists k :: 0 <= k < |parts| && parts[k] != "" && parts[k][0] == c
  {
    if parts[0] != "" && parts[0][0] == c {
      assert parts[0] != "" && parts[0][0] == c;
    } else {
      FirstLettersAreHeads(parts[1..], c);
      var k :| 0 <= k < |parts[1..]| && parts[1..][k] != "" && parts[1..][k][0] == c;
      assert parts[k + 1] == parts[1..][k];
    }
  }

  /** The initials never contain a space. */
  lemma InitialsHaveNoSpace(name: string)
    ensures ' ' !in Initials(name)
  {
    if ' ' in Initials(name) {
      FirstLettersAreHeads(Split(name), ' ');
      assert false;
    }
  }

  /** A word without spaces is its own single piece. */
  lemma {:induction false} SplitWord(w: string)
    requires ' ' !in w
    ensures Split(w) == [w]
    decreases |w|
  {
    if w != [] {
      assert ' ' !in w[1..];
      SplitWord(w[1..]);
      assert [w[0]] + w[1..] == w;
    }
  }

  /** A leading word and its space split off as the first piece. */
  lemma {:induction false} SplitLeadingWord(w: string, rest: string)
    requires ' ' !in w
    ensures Split(w + " " + rest) == [w] + Split(rest)
    decreases |w|
  {
    if w == [] {
      assert w + " " + rest == [' '] + rest;
      assert (w + " " + rest)[1..] == rest;
    } else {
      var s := w + " " + rest;
      assert s[1..] == w[1..] + " " + rest;
      assert ' ' !in w[1..];
      SplitLeadingWord(w[1..], rest);
      assert [w[0]] + w[1..] == w;
    }
  }

  /** The seeded user's avatar reads "AG". */
  lemma SeededUserInitials()
    ensures Initials("Alex Green") == "AG"
  {
    assert "Alex Green" == "Alex" + " " + "Green";
    SplitLeadingWord("Alex", "Green");
    SplitWord("Green");
    var parts := Split("Alex Green");
    assert parts == ["Alex", "Green"];
    assert parts[1..] == ["Green"];
    assert FirstLetters(["Green"]) == "G";
    assert FirstLetters(parts) == "A" + FirstLetters(["Green"]);
  }
}
