/**
 * One stage card of the journey pipeline (src/components/JourneyStop.tsx):
 * the stage's status, its icon, its number and the preview of its
 * technologies. Layout, colours and animation are not modelled.
 */
module StageCard {
  import opened Strings
  import JourneyData

  datatype Status = Succeeded | InProgress | Pending

  /** `stageStatus`: the last stage is pending; any other is succeeded when completed, in progress otherwise. */
  function StageStatus(index: int, total: int, isCompleted: bool): (r: Status)
    ensures r == Pending <==> index == total - 1
    ensures r == Succeeded <==> index != total - 1 && isCompleted
  {
    if index == total - 1 then Pending
    else if isCompleted then Succeeded
    else InProgress
  }

  /** The card passes a fixed total of six stages. */
  const StageCount := 6

  function CardStatus(index: int, isCompleted: bool): Status
  {
    StageStatus(index, StageCount, isCompleted)
  }

  /** The fixed total is the length of the timeline table. */
  lemma StageCountIsTimeline()
    ensures StageCount == |JourneyData.JourneyStops|
  {
    JourneyData.SixStops();
  }

  /**
   * Along the timeline, where a stage counts as completed when it is not the
   * last one, the last stage is pending, every other stage succeeded, and
   * none is ever in progress.
   */
  lemma TimelineStatuses(index: nat)
    requires index < |JourneyData.JourneyStops|
    ensures var s := CardStatus(index, index < |JourneyData.JourneyStops| - 1);
      && (s == Pending <==> index == StageCount - 1)
      && (s == Succeeded <==> index < StageCount - 1)
      && s != InProgress
  {
    StageCountIsTimeline();
  }

  datatype Icon = GraduationCap | Globe | Code | Server | Rocket | Compass | Circle

  const IconMap: map<string, Icon> := map[
    "graduation-cap" := GraduationCap,
    "globe" := Globe,
    "code" := Code,
    "server" := Server,
    "rocket" := Rocket,
    "compass" := Compass]

  /** `iconMap[stop.icon] || Circle`. */
  function IconFor(name: string): (r: Icon)
    ensures name in IconMap ==> r == IconMap[name] && r != Circle
    ensures name !in IconMap ==> r == Circle
  {
    if name in IconMap then IconMap[name] else Circle
  }

  /** Every stop of the timeline names an icon of the map, so none falls back to the circle. */
  lemma EveryStopHasIcon(i: nat)
    requires i < |JourneyData.JourneyStops|
    ensures JourneyData.JourneyStops[i].icon in IconMap
    ensures IconFor(JourneyData.JourneyStops[i].icon) != Circle
  {
  }

  /** The label `Stage <index + 1>`. */
  function StageLabel(index: nat): (r: string)
    ensures |r| > 6 && r[..6] == "Stage "
  {
    "Stage " + NatToString(index + 1)
  }

  /** The labels number the stages from one and tell them apart. */
  lemma StageLabelsDistinct(i: nat, j: nat)
    ensures StageLabel(i) == StageLabel(j) <==> i == j
  {
    if StageLabel(i) == StageLabel(j) {
      var a, b := NatToString(i + 1), NatToString(j + 1);
      assert a == StageLabel(i)[6..];
      assert b == StageLabel(j)[6..];
      DecimalValue(i + 1);
      DecimalValue(j + 1);
    }
  }

  /** The first stage is labelled `Stage 1`. */
  lemma FirstStageLabel()
    ensures StageLabel(0) == "Stage 1"
  {
  }

  /** The technology preview: the first three names, then a `+<rest>` badge when more remain. */
  datatype Preview = Preview(shown: seq<string>, badge: Option<string>)

  /**
   * The preview of a stop's technologies: nothing without a non-empty list,
   * otherwise `slice(0, 3)` and the badge when the list is longer than three.
   */
  function TechPreview(technologies: Option<seq<string>>): (r: Option<Preview>)
    ensures r.Some? <==> technologies.Some? && |technologies.value| > 0
    ensures r.Some? ==>
      var ts := technologies.value;
      && |r.value.shown| == (if |ts| < 3 then |ts| else 3)
      && (forall k :: 0 <= k < |r.value.shown| ==> r.value.shown[k] == ts[k])
      && (r.value.badge.Some? <==> |ts| > 3)
      && (r.value.badge.Some? ==> r.value.badge.value == "+" + NatToString(|ts| - 3))
  {
    match technologies
    case None => None
    case Some(ts) =>
      if |ts| == 0 then None
      else
        var shown := if |ts| < 3 then ts else ts[..3];
        var badge := if |ts| > 3 then Some("+" + NatToString(|ts| - 3)) else None;
        Some(Preview(shown, badge))
  }

  /** The preview of the first stop: three of its five technologies and a `+2` badge. */
  lemma FoundationsPreview()
    ensures var p := TechPreview(JourneyData.JourneyStops[0].content.technologies);
      && p.Some?
      && p.value.shown == ["Java", "Database", "SQL"]
      && p.value.badge == Some("+2")
  {
    var ts := JourneyData.JourneyStops[0].content.technologies.value;
    assert |ts| == 5;
    assert NatToString(|ts| - 3) == "2";
    assert "+" + NatToString(|ts| - 3) == "+2";
  }
}
