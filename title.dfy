/** parse_window_title of the workspace-and-tiling story: the workspace and
    the tile side a window bot's title names. */
module Title {
  import opened Wrappers
  import opened Text
  import opened Geometry

  const WorkspacePhrases: seq<string> := ["Workspace One", "Workspace Two", "Workspace Three"]

  /** The workspace: the first of One, Two, Three whose phrase occurs. */
  function ParseWorkspace(title: string): (w: Option<nat>)
    ensures w.Some? ==> w.value < 3
    ensures w.None? <==> forall k :: 0 <= k < 3 ==> !Contains(title, WorkspacePhrases[k])
    ensures w.Some? ==> Contains(title, WorkspacePhrases[w.value]) &&
                        forall k :: 0 <= k < w.value ==> !Contains(title, WorkspacePhrases[k])
  {
    assert WorkspacePhrases[0] == "Workspace One" && WorkspacePhrases[1] == "Workspace Two" &&
           WorkspacePhrases[2] == "Workspace Three";
    if Contains(title, "Workspace One") then Some(0)
    else if Contains(title, "Workspace Two") then Some(1)
    else if Contains(title, "Workspace Three") then Some(2)
    else None
  }

  /** The side: RIGHT when "Right Side" occurs, else LEFT when "Left Side" does. */
  function ParsePosition(title: string): (p: Option<TilePosition>)
    ensures p == Some(Right) <==> Contains(title, "Right Side")
    ensures p == Some(Left) <==> Contains(title, "Left Side") && !Contains(title, "Right Side")
    ensures p.None? <==> !Contains(title, "Right Side") && !Contains(title, "Left Side")
  {
    if Contains(title, "Right Side") then Some(Right)
    else if Contains(title, "Left Side") then Some(Left)
    else None
  }

  /** parse_window_title: the pair, each part None when the title names none,
      and (None, None) exactly for a title without any of the five phrases. */
  function ParseWindowTitle(title: string): (r: (Option<nat>, Option<TilePosition>))
    ensures r.0.Some? ==> r.0.value < 3 && Contains(title, WorkspacePhrases[r.0.value])
    ensures r.0.None? <==> forall k :: 0 <= k < 3 ==> !Contains(title, WorkspacePhrases[k])
    ensures r.1 == Some(Right) <==> Contains(title, "Right Side")
    ensures r.1 == Some(Left) <==> Contains(title, "Left Side") && !Contains(title, "Right Side")
    ensures r == (None, None) <==>
      (forall k :: 0 <= k < 3 ==> !Contains(title, WorkspacePhrases[k])) &&
      !Contains(title, "Right Side") && !Contains(title, "Left Side")
  {
    (ParseWorkspace(title), ParsePosition(title))
  }

  /** The position in `phrases` of the first phrase that occurs in the title. */
  function FirstOccurring(phrases: seq<string>, title: string): (r: Option<nat>)
    ensures r.Some? ==> r.value < |phrases|
  {
    if phrases == [] then None
    else if Contains(title, phrases[0]) then Some(0)
    else match FirstOccurring(phrases[1..], title)
      case None => None
      case Some(k) => Some(k + 1)
  }

  lemma {:induction false} FirstOccurringIsFirst(phrases: seq<string>, title: string)
    ensures var r := FirstOccurring(phrases, title);
      (r.None? <==> forall k :: 0 <= k < |phrases| ==> !Contains(title, phrases[k])) &&
      (r.Some? ==> Contains(title, phrases[r.value]) &&
                   forall k :: 0 <= k < r.value ==> !Contains(title, phrases[k]))
  {
    if phrases != [] && !Contains(title, phrases[0]) {
      FirstOccurringIsFirst(phrases[1..], title);
      assert forall k :: 1 <= k < |phrases| ==> phrases[k] == phrases[1..][k - 1];
    }
  }

  /** The workspace is the index of the first workspace phrase that occurs. */
  lemma WorkspaceIsFirstPhrase(title: string)
    ensures ParseWorkspace(title) == FirstOccurring(WorkspacePhrases, title)
  {
    FirstOccurringIsFirst(WorkspacePhrases, title);
  }

  /** "Workspace One" wins over the other phrases, "Workspace Two" over "Workspace Three". */
  lemma WorkspacePrecedence(title: string)
    ensures Contains(title, "Workspace One") ==> ParseWorkspace(title) == Some(0)
    ensures !Contains(title, "Workspace One") && Contains(title, "Workspace Two") ==> ParseWorkspace(title) == Some(1)
  {
  }

  /** Separability: the workspace depends only on which workspace phrases
      occur, the position only on which side phrases occur. */
  lemma Separable(a: string, b: string)
    ensures (forall k :: 0 <= k < 3 ==> (Contains(a, WorkspacePhrases[k]) <==> Contains(b, WorkspacePhrases[k]))) ==>
            ParseWindowTitle(a).0 == ParseWindowTitle(b).0
    ensures (Contains(a, "Right Side") <==> Contains(b, "Right Side")) &&
            (Contains(a, "Left Side") <==> Contains(b, "Left Side")) ==>
            ParseWindowTitle(a).1 == ParseWindowTitle(b).1
  {
    if forall k :: 0 <= k < 3 ==> (Contains(a, WorkspacePhrases[k]) <==> Contains(b, WorkspacePhrases[k])) {
      assert Contains(a, WorkspacePhrases[0]) <==> Contains(b, WorkspacePhrases[0]);
      assert Contains(a, WorkspacePhrases[1]) <==> Contains(b, WorkspacePhrases[1]);
      assert Contains(a, WorkspacePhrases[2]) <==> Contains(b, WorkspacePhrases[2]);
    }
  }

  /** A title naming a workspace and a side in any surrounding text parses to both. */
  lemma NamedTitle(before: string, k: nat, middle: string, side: TilePosition, after: string)
    requires k < 3
    requires forall j :: 0 <= j < k ==> !Contains(before + WorkspacePhrases[k] + middle + (if side == Right then "Right Side" else "Left Side") + after, WorkspacePhrases[j])
    requires side == Left ==> !Contains(before + WorkspacePhrases[k] + middle + "Left Side" + after, "Right Side")
    ensures ParseWindowTitle(before + WorkspacePhrases[k] + middle + (if side == Right then "Right Side" else "Left Side") + after) ==
            (Some(k), Some(side))
  {
    var phrase := if side == Right then "Right Side" else "Left Side";
    var title := before + WorkspacePhrases[k] + middle + phrase + after;
    assert title == before + WorkspacePhrases[k] + (middle + phrase + after);
    ContainsInfix(before, WorkspacePhrases[k], middle + phrase + after);
    assert title == (before + WorkspacePhrases[k] + middle) + phrase + after;
    ContainsInfix(before + WorkspacePhrases[k] + middle, phrase, after);
  }

  /** The window layout the story applies for a title: skipped (None) unless
      the title names both a workspace and a side. */
  function TitleLayout(title: string): (r: Option<(nat, TilePosition)>)
    ensures r.Some? <==> ParseWorkspace(title).Some? && ParsePosition(title).Some?
    ensures r.Some? ==> r.value.0 < 3 && Some(r.value.0) == ParseWorkspace(title) && Some(r.value.1) == ParsePosition(title)
  {
    var (workspace, position) := ParseWindowTitle(title);
    if workspace.None? || position.None? then None else Some((workspace.value, position.value))
  }
}
