/**
 * `CollaboratorDashboard`: a marketer's co-authoring screen with a simple
 * module list and a list of teaser videos that render, then become ready.
 */
module Collaborator {
  import opened Wrappers
  import Seqs
  import Text

  /** The screen's own, smaller module record. */
  datatype SimpleModule = SimpleModule(id: string, title: string, description: string, duration: string, videoUploaded: bool)

  datatype SimplePatch = SimplePatch(
    id: Option<string>,
    title: Option<string>,
    description: Option<string>,
    duration: Option<string>,
    videoUploaded: Option<bool>)

  datatype Status = Rendering | Ready

  datatype TeaserVideo = TeaserVideo(id: string, title: string, status: Status)

  const DefaultName := "Collaborator"
  const InitialTitle := "New Collaboration Course"
  const InitialDescription := "Describe the course outcomes, audience, and structure."

  /** `searchParams.get('name') || 'Collaborator'`. */
  function MarketerName(param: Option<string>): (n: string)
    ensures param.Some? && param.value != "" ==> n == param.value
    ensures param.None? || param.value == "" ==> n == DefaultName
  {
    if param.Some? && param.value != "" then param.value else DefaultName
  }

  /**
   * The page header as the source file spells it: the UTF-8 bytes of the bullet
   * U+2022 were saved as the three characters U+00E2 U+20AC U+00A2.
   */
  function HeaderAsWritten(name: string): (h: string)
    ensures |h| == |name| + 18 && h[..|name|] == name
  {
    name + " \U{E2}\U{20AC}\U{A2} Collaboration"
  }

  /** The page header: the name, the bullet U+2022, then "Collaboration". */
  function Header(name: string): (h: string)
    ensures |h| == |name| + 16 && h[..|name|] == name && h[|name| + 1] == '\U{2022}'
  {
    name + " \U{2022} Collaboration"
  }

  /** As written, the header shows three stray characters where the bullet belongs, and no bullet at all. */
  lemma HeaderAsWrittenShowsMojibake(name: string)
    requires '\U{2022}' !in name
    ensures HeaderAsWritten(name) != Header(name)
    ensures |HeaderAsWritten(name)| == |Header(name)| + 2
    ensures HeaderAsWritten(name)[|name| + 1..|name| + 4] == "\U{E2}\U{20AC}\U{A2}"
    ensures '\U{2022}' !in HeaderAsWritten(name)
  {
    assert HeaderAsWritten(name) == name + " " + "\U{E2}\U{20AC}\U{A2}" + " Collaboration";
    assert Header(name) == name + " " + "\U{2022}" + " Collaboration";
    assert HeaderAsWritten(name)[|name| + 1] != Header(name)[|name| + 1];
  }

  /** The header shows the marketer's name followed by the single bullet, and different names give different headers. */
  lemma HeaderNamesMarketer(name: string, other: string)
    ensures Header(name)[..|name|] == name
    ensures Header(name)[|name|..|name| + 3] == " \U{2022} "
    ensures Header(name) == Header(other) <==> name == other
  {
    assert Header(name) == name + " \U{2022} " + "Collaboration";
    if Header(name) == Header(other) {
      assert |name| == |other|;
      assert name == Header(name)[..|name|] == Header(other)[..|other|] == other;
    }
  }

  function NewModule(now: nat, count: nat): (m: SimpleModule)
    ensures m.id == Text.NatToString(now) && m.title == "Module " + Text.NatToString(count + 1)
    ensures m.description == "" && m.duration == "" && !m.videoUploaded
  {
    SimpleModule(Text.NatToString(now), "Module " + Text.NatToString(count + 1), "", "", false)
  }

  function Merge(m: SimpleModule, p: SimplePatch): SimpleModule {
    SimpleModule(p.id.GetOr(m.id), p.title.GetOr(m.title), p.description.GetOr(m.description),
                 p.duration.GetOr(m.duration), p.videoUploaded.GetOr(m.videoUploaded))
  }

  function HasId(id: string): SimpleModule -> bool {
    (m: SimpleModule) => m.id == id
  }

  function LacksId(id: string): SimpleModule -> bool {
    (m: SimpleModule) => m.id != id
  }

  /** `removeModule`. */
  function RemoveModules(modules: seq<SimpleModule>, id: string): (r: seq<SimpleModule>)
    ensures forall m :: m in r <==> m in modules && m.id != id
    ensures Seqs.IsSubsequence(r, modules)
    ensures forall m :: multiset(r)[m] == if m.id != id then multiset(modules)[m] else 0
  {
    Seqs.FilterCounts(modules, LacksId(id));
    Seqs.Filter(modules, LacksId(id))
  }

  /** `updateModule`. */
  function UpdateModules(modules: seq<SimpleModule>, id: string, p: SimplePatch): (r: seq<SimpleModule>)
    ensures |r| == |modules|
    ensures forall i :: 0 <= i < |modules| && modules[i].id != id ==> r[i] == modules[i]
    ensures forall i :: 0 <= i < |modules| && modules[i].id == id ==> r[i] == Merge(modules[i], p)
  {
    Seqs.MapWhere(modules, HasId(id), (m: SimpleModule) => Merge(m, p))
  }

  /** `handleVideoUpload`: only the flag of the matching modules is set. */
  function MarkUploaded(modules: seq<SimpleModule>, id: string): (r: seq<SimpleModule>)
    ensures |r| == |modules|
    ensures forall i :: 0 <= i < |modules| && modules[i].id != id ==> r[i] == modules[i]
    ensures forall i :: 0 <= i < |modules| && modules[i].id == id ==> r[i] == modules[i].(videoUploaded := true)
  {
    Seqs.MapWhere(modules, HasId(id), (m: SimpleModule) => m.(videoUploaded := true))
  }

  /** An upload is the update that sets nothing but the flag. */
  lemma UploadIsUpdate(modules: seq<SimpleModule>, id: string)
    ensures MarkUploaded(modules, id) == UpdateModules(modules, id, SimplePatch(None, None, None, None, Some(true)))
  {
  }

  /** Removing a module right after adding it, under an id no other module has, restores the list. */
  lemma AddThenRemove(modules: seq<SimpleModule>, now: nat)
    requires forall m :: m in modules ==> m.id != Text.NatToString(now)
    ensures RemoveModules(modules + [NewModule(now, |modules|)], Text.NatToString(now)) == modules
  {
    var id := Text.NatToString(now);
    Seqs.FilterAppend(modules, [NewModule(now, |modules|)], LacksId(id));
    Seqs.FilterKeepsAll(modules, LacksId(id));
  }

  /** The teaser's title: after the first module's title when it has one, else "Course Teaser". */
  function TeaserTitle(modules: seq<SimpleModule>): (t: string)
    ensures modules != [] && modules[0].title != "" ==> t == modules[0].title + " - Teaser"
    ensures modules == [] || modules[0].title == "" ==> t == "Course Teaser"
  {
    if modules != [] && modules[0].title != "" then modules[0].title + " - Teaser" else "Course Teaser"
  }

  /** The video `createPreviewVideo` appends, with `now` standing for `Date.now()`. */
  function NewTeaser(now: nat, modules: seq<SimpleModule>): (v: TeaserVideo)
    ensures v.id == "v-" + Text.NatToString(now) && v.title == TeaserTitle(modules) && v.status == Rendering
  {
    TeaserVideo("v-" + Text.NatToString(now), TeaserTitle(modules), Rendering)
  }

  /** The timer's update: the videos with the id become ready; every other video is untouched. */
  function MarkReady(videos: seq<TeaserVideo>, id: string): (r: seq<TeaserVideo>)
    ensures |r| == |videos|
    ensures forall i :: 0 <= i < |videos| && videos[i].id != id ==> r[i] == videos[i]
    ensures forall i :: 0 <= i < |videos| && videos[i].id == id ==> r[i] == videos[i].(status := Ready)
  {
    Seqs.MapWhere(videos, (v: TeaserVideo) => v.id == id, (v: TeaserVideo) => v.(status := Ready))
  }

  /** A video never goes back from ready to rendering, and the ready count never drops. */
  lemma {:induction false} MarkReadyMonotone(videos: seq<TeaserVideo>, id: string)
    ensures forall i :: 0 <= i < |videos| && videos[i].status == Ready ==> MarkReady(videos, id)[i].status == Ready
    ensures Seqs.Count(videos, (v: TeaserVideo) => v.status == Ready) <= Seqs.Count(MarkReady(videos, id), (v: TeaserVideo) => v.status == Ready)
    decreases |videos|
  {
    if videos != [] {
      var r := MarkReady(videos, id);
      assert r == [r[0]] + r[1..] && videos == [videos[0]] + videos[1..];
      assert r[1..] == MarkReady(videos[1..], id);
      MarkReadyMonotone(videos[1..], id);
      Seqs.CountAppend([r[0]], r[1..], (v: TeaserVideo) => v.status == Ready);
      Seqs.CountAppend([videos[0]], videos[1..], (v: TeaserVideo) => v.status == Ready);
    }
  }

  /** The screen's state. */
  class Dashboard {
    var courseTitle: string
    var courseDescription: string
    var modules: seq<SimpleModule>
    var videos: seq<TeaserVideo>
    const marketerName: string

    /** The heading the screen shows: the header as the source spells it, with the stray characters. */
    function HeaderText(): (h: string)
      reads this
      ensures |h| == |marketerName| + 18 && h[..|marketerName|] == marketerName
      ensures h[|marketerName| + 1..|marketerName| + 4] == "\U{E2}\U{20AC}\U{A2}"
      ensures h != Header(marketerName)
    {
      var h := HeaderAsWritten(marketerName);
      assert h == marketerName + " " + "\U{E2}\U{20AC}\U{A2}" + " Collaboration";
      h
    }

    constructor (nameParam: Option<string>)
      ensures marketerName == MarketerName(nameParam)
      ensures courseTitle == InitialTitle && courseDescription == InitialDescription
      ensures modules == [] && videos == []
    {
      marketerName := MarketerName(nameParam);
      courseTitle := InitialTitle;
      courseDescription := InitialDescription;
      modules := [];
      videos := [];
    }

    method AddModule(now: nat)
      modifies this`modules
      ensures modules == old(modules) + [NewModule(now, |old(modules)|)]
    {
      modules := modules + [NewModule(now, |modules|)];
    }

    method RemoveModule(id: string)
      modifies this`modules
      ensures modules == RemoveModules(old(modules), id)
    {
      modules := RemoveModules(modules, id);
    }

    method UpdateModule(id: string, p: SimplePatch)
      modifies this`modules
      ensures modules == UpdateModules(old(modules), id, p)
    {
      modules := UpdateModules(modules, id, p);
    }

    method HandleVideoUpload(id: string)
      modifies this`modules
      ensures modules == MarkUploaded(old(modules), id)
    {
      modules := MarkUploaded(modules, id);
    }

    /** `createPreviewVideo`: appends a rendering teaser and returns the id its timer will mark ready. */
    method CreatePreviewVideo(now: nat) returns (id: string)
      modifies this`videos
      ensures videos == old(videos) + [NewTeaser(now, modules)] && id == NewTeaser(now, modules).id
    {
      var v := NewTeaser(now, modules);
      videos := videos + [v];
      id := v.id;
    }

    /** The timer callback of `createPreviewVideo`. */
    method FinishRendering(id: string)
      modifies this`videos
      ensures videos == MarkReady(old(videos), id)
    {
      videos := MarkReady(videos, id);
    }
  }
}
