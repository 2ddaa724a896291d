/**
 * The two icon lookups of a notification row: the leading icon chosen by
 * the thread's type (`getPRIssueIcon`) and the tooltip icons chosen by its
 * badge tags (the `switch` inside `n.badges.map`).
 */
module Icons {
  import opened Wrappers

  /** The icon components the row draws. */
  datatype Glyph = PrMerged | IssueOpen | Hot | Timer | Convo

  /** A badge icon and the text of the tooltip wrapped around it. */
  datatype BadgeIcon = BadgeIcon(glyph: Glyph, tooltip: string)

  const PullRequestType: string := "PullRequest"
  const IssueType: string := "Issue"

  /** Values of the badge constants. */
  const HotTag: string := "HOT"
  const OldTag: string := "OLD"
  const CommentsTag: string := "COMMENTS"

  /**
   * The leading icon for a thread type; any other type draws nothing. The
   * reasons are passed in but never looked at.
   */
  function PRIssueIcon(kind: string, reasons: seq<string>): (r: Option<Glyph>)
    ensures r == Some(PrMerged) <==> kind == PullRequestType
    ensures r == Some(IssueOpen) <==> kind == IssueType
    ensures r == None <==> kind != PullRequestType && kind != IssueType
  {
    if kind == PullRequestType then Some(PrMerged)
    else if kind == IssueType then Some(IssueOpen)
    else None
  }

  /** The result does not depend on the reasons. */
  lemma IconIgnoresReasons(kind: string, r1: seq<string>, r2: seq<string>)
    ensures PRIssueIcon(kind, r1) == PRIssueIcon(kind, r2)
  {
  }

  /** The type each type icon stands for; the reading direction of `PRIssueIcon`. */
  function TypeOf(g: Glyph): Option<string> {
    match g
    case PrMerged => Some(PullRequestType)
    case IssueOpen => Some(IssueType)
    case _ => None
  }

  lemma TypeIconRoundTrip(kind: string, reasons: seq<string>, g: Glyph)
    ensures PRIssueIcon(kind, reasons) == Some(g) <==> TypeOf(g) == Some(kind)
  {
  }

  /**
   * One badge tag's icon; an unknown tag draws nothing. The glyph drawn
   * stands for the tag it was drawn for.
   */
  function BadgeIconOf(tag: string): (r: Option<BadgeIcon>)
    ensures r.Some? <==> tag == HotTag || tag == OldTag || tag == CommentsTag
    ensures r.Some? ==> BadgeTagOf(r.value.glyph) == Some(tag)
  {
    if tag == HotTag then Some(BadgeIcon(Hot, "Lots of recent activity"))
    else if tag == OldTag then Some(BadgeIcon(Timer, "Old pull request that needs your review"))
    else if tag == CommentsTag then Some(BadgeIcon(Convo, "Very talkative thread"))
    else None
  }

  /** The badge tag each badge icon stands for; the reading direction of `BadgeIconOf`. */
  function BadgeTagOf(g: Glyph): Option<string> {
    match g
    case Hot => Some(HotTag)
    case Timer => Some(OldTag)
    case Convo => Some(CommentsTag)
    case _ => None
  }

  /**
   * Known tags and badge glyphs correspond one to one, so two different
   * known tags never draw the same icon.
   */
  lemma BadgeRoundTrip(tag: string, g: Glyph)
    ensures (BadgeIconOf(tag).Some? && BadgeIconOf(tag).value.glyph == g) <==> BadgeTagOf(g) == Some(tag)
  {
  }

  /** One slot per badge, in the badges' order: the array map of the source. */
  function BadgeIcons(badges: seq<string>): (r: seq<Option<BadgeIcon>>)
    ensures |r| == |badges|
    ensures forall i :: 0 <= i < |badges| ==> r[i] == BadgeIconOf(badges[i])
  {
    if badges == [] then [] else [BadgeIconOf(badges[0])] + BadgeIcons(badges[1..])
  }

  /** What is drawn from a list of slots: the empty (`null`) slots draw nothing. */
  function Shown(slots: seq<Option<BadgeIcon>>): seq<BadgeIcon> {
    if slots == [] then []
    else (if slots[0].Some? then [slots[0].value] else []) + Shown(slots[1..])
  }

  /** The badge tags that draw an icon, in their order. */
  function KnownTags(badges: seq<string>): seq<string> {
    if badges == [] then []
    else (if BadgeIconOf(badges[0]).Some? then [badges[0]] else []) + KnownTags(badges[1..])
  }

  /**
   * The drawn icons are exactly one per known tag, in the tags' order;
   * unknown tags are skipped and repeated tags each draw their own icon.
   */
  lemma {:induction false} ShownFollowsKnownTags(badges: seq<string>)
    ensures |Shown(BadgeIcons(badges))| == |KnownTags(badges)|
    ensures forall i :: 0 <= i < |KnownTags(badges)| ==>
      BadgeIconOf(KnownTags(badges)[i]) == Some(Shown(BadgeIcons(badges))[i])
  {
    if badges != [] {
      var slots := BadgeIcons(badges);
      assert slots[1..] == BadgeIcons(badges[1..]);
      ShownFollowsKnownTags(badges[1..]);
    }
  }

  /** All three known badges draw three icons in order; an unknown one draws none. */
  lemma BadgeExamples()
    ensures Shown(BadgeIcons([HotTag, OldTag, CommentsTag])) ==
      [BadgeIcon(Hot, "Lots of recent activity"),
       BadgeIcon(Timer, "Old pull request that needs your review"),
       BadgeIcon(Convo, "Very talkative thread")]
    ensures Shown(BadgeIcons([])) == []
    ensures Shown(BadgeIcons(["UNKNOWN"])) == []
  {
    var a, b, c := BadgeIconOf(HotTag), BadgeIconOf(OldTag), BadgeIconOf(CommentsTag);
    var three := BadgeIcons([HotTag, OldTag, CommentsTag]);
    assert three == [a, b, c];
    assert three[1..] == [b, c] && three[1..][1..] == [c] && three[1..][1..][1..] == [];
    assert Shown([c]) == [c.value];
    assert Shown([b, c]) == [b.value, c.value];
    var unknown := BadgeIcons(["UNKNOWN"]);
    assert unknown[1..] == [];
  }
}
