/** The scenario preview editor: the updaters that rebuild the edited
    scenario when a scene's narration or image prompt, the title, or the
    scene list changes. */
module ScenarioEditor {
  import opened Pipeline

  /** The editor's `editedScenario`: every scene is an object. */
  datatype EditedScenario = EditedScenario(title: string, scenes: seq<Scene>)

  datatype SceneField = NarrationField | ImagePromptField

  /** `{ ...scene, text }` or `{ ...scene, imagePrompt }`. */
  function SetField(scene: Scene, field: SceneField, value: string): Scene {
    if field == NarrationField then scene.(text := value) else scene.(imagePrompt := value)
  }

  /** `scenes.map((scene, i) => i === index ? edit(scene) : scene)`. */
  function EditAt(scenes: seq<Scene>, index: int, field: SceneField, value: string): (r: seq<Scene>)
    ensures |r| == |scenes|
    ensures forall i :: 0 <= i < |r| && i != index ==> r[i] == scenes[i]
    ensures 0 <= index < |r| ==> r[index] == SetField(scenes[index], field, value)
    decreases |scenes|
  {
    if scenes == [] then []
    else
      var n := |scenes| - 1;
      EditAt(scenes[..n], index, field, value) + [if n == index then SetField(scenes[n], field, value) else scenes[n]]
  }

  /** `scenes.filter((_, i) => i !== index)`. */
  function RemoveAt(scenes: seq<Scene>, index: int): (r: seq<Scene>)
    ensures 0 <= index < |scenes| ==> r == scenes[..index] + scenes[index + 1..]
    ensures !(0 <= index < |scenes|) ==> r == scenes
    decreases |scenes|
  {
    if scenes == [] then []
    else
      var n := |scenes| - 1;
      var kept := RemoveAt(scenes[..n], index);
      assert scenes == scenes[..n] + [scenes[n]];
      if n == index then kept else kept + [scenes[n]]
  }

  /** `handleSceneTextChange`. */
  function SceneTextChange(s: EditedScenario, index: int, text: string): EditedScenario {
    s.(scenes := EditAt(s.scenes, index, NarrationField, text))
  }

  /** `handleSceneImagePromptChange`. */
  function SceneImagePromptChange(s: EditedScenario, index: int, imagePrompt: string): EditedScenario {
    s.(scenes := EditAt(s.scenes, index, ImagePromptField, imagePrompt))
  }

  /** `handleTitleChange`. */
  function TitleChange(s: EditedScenario, title: string): EditedScenario {
    s.(title := title)
  }

  /** `handleRemoveScene`. */
  function RemoveScene(s: EditedScenario, index: int): EditedScenario {
    s.(scenes := RemoveAt(s.scenes, index))
  }

  /** `handleAddScene`: an empty scene at the end. */
  function AddScene(s: EditedScenario): EditedScenario {
    s.(scenes := s.scenes + [Scene("", "")])
  }

  /** Editing a scene's narration changes only that scene's text: the
      title, the scene count, its image prompt and every other scene stay;
      an index outside the list changes nothing. */
  lemma SceneTextChangeOnly(s: EditedScenario, index: int, text: string)
    ensures var r := SceneTextChange(s, index, text);
      && r.title == s.title && |r.scenes| == |s.scenes|
      && (forall i :: 0 <= i < |s.scenes| && i != index ==> r.scenes[i] == s.scenes[i])
      && (0 <= index < |s.scenes| ==>
            r.scenes[index].text == text && r.scenes[index].imagePrompt == s.scenes[index].imagePrompt)
      && (!(0 <= index < |s.scenes|) ==> r == s)
  {
    var r := SceneTextChange(s, index, text);
    if !(0 <= index < |s.scenes|) {
      assert r.scenes == s.scenes;
    }
  }

  /** Editing an image prompt changes only that scene's prompt. */
  lemma SceneImagePromptChangeOnly(s: EditedScenario, index: int, imagePrompt: string)
    ensures var r := SceneImagePromptChange(s, index, imagePrompt);
      && r.title == s.title && |r.scenes| == |s.scenes|
      && (forall i :: 0 <= i < |s.scenes| && i != index ==> r.scenes[i] == s.scenes[i])
      && (0 <= index < |s.scenes| ==>
            r.scenes[index].imagePrompt == imagePrompt && r.scenes[index].text == s.scenes[index].text)
      && (!(0 <= index < |s.scenes|) ==> r == s)
  {
    var r := SceneImagePromptChange(s, index, imagePrompt);
    if !(0 <= index < |s.scenes|) {
      assert r.scenes == s.scenes;
    }
  }

  /** Re-entering the current narration is no change. */
  lemma SceneTextChangeSame(s: EditedScenario, index: int)
    requires 0 <= index < |s.scenes|
    ensures SceneTextChange(s, index, s.scenes[index].text) == s
  {
    assert SceneTextChange(s, index, s.scenes[index].text).scenes == s.scenes;
  }

  /** Removing a scene and adding one: the scene at the index is gone, the
      others keep their order, and the new scene is the empty one at the end. */
  lemma RemoveThenAdd(s: EditedScenario, index: int)
    requires 0 <= index < |s.scenes|
    ensures AddScene(RemoveScene(s, index)).scenes == s.scenes[..index] + s.scenes[index + 1..] + [Scene("", "")]
    ensures |RemoveScene(s, index).scenes| == |s.scenes| - 1
  {
  }

  /** Removing the scene just added restores the scenario. */
  lemma AddThenRemove(s: EditedScenario)
    ensures RemoveScene(AddScene(s), |s.scenes|) == s
  {
    var t := s.scenes + [Scene("", "")];
    assert t[..|s.scenes|] == s.scenes;
  }

  /** An editor action, as the rendered controls can trigger it. */
  datatype Action =
    | EditText(index: int, text: string)
    | EditImagePrompt(index: int, imagePrompt: string)
    | EditTitle(title: string)
    | Remove(index: int)
    | Add

  function Apply(s: EditedScenario, a: Action): EditedScenario {
    match a
    case EditText(i, t) => SceneTextChange(s, i, t)
    case EditImagePrompt(i, p) => SceneImagePromptChange(s, i, p)
    case EditTitle(t) => TitleChange(s, t)
    case Remove(i) => RemoveScene(s, i)
    case Add => AddScene(s)
  }

  /** What the rendered editor offers: edits and removals name a rendered
      scene, and a remove button is rendered only when there is more than
      one scene. */
  predicate Offered(s: EditedScenario, a: Action) {
    match a
    case EditText(i, _) => 0 <= i < |s.scenes|
    case EditImagePrompt(i, _) => 0 <= i < |s.scenes|
    case EditTitle(_) => true
    case Remove(i) => |s.scenes| > 1 && 0 <= i < |s.scenes|
    case Add => true
  }

  function ApplyAll(s: EditedScenario, actions: seq<Action>): EditedScenario
    decreases |actions|
  {
    if actions == [] then s else ApplyAll(Apply(s, actions[0]), actions[1..])
  }

  predicate AllOffered(s: EditedScenario, actions: seq<Action>)
    decreases |actions|
  {
    actions == [] || (Offered(s, actions[0]) && AllOffered(Apply(s, actions[0]), actions[1..]))
  }

  /** One offered action never empties a non-empty scene list. */
  lemma OfferedKeepsScene(s: EditedScenario, a: Action)
    requires |s.scenes| >= 1 && Offered(s, a)
    ensures |Apply(s, a).scenes| >= 1
  {
    match a
    case EditText(i, t) => SceneTextChangeOnly(s, i, t);
    case EditImagePrompt(i, p) => SceneImagePromptChangeOnly(s, i, p);
    case EditTitle(_) =>
    case Remove(i) => RemoveThenAdd(s, i);
    case Add =>
  }

  /** However the user edits a scenario through the rendered controls, it
      keeps at least one scene. */
  lemma {:induction false} EditorNeverEmpties(s: EditedScenario, actions: seq<Action>)
    requires |s.scenes| >= 1 && AllOffered(s, actions)
    ensures |ApplyAll(s, actions).scenes| >= 1
    decreases |actions|
  {
    if actions != [] {
      OfferedKeepsScene(s, actions[0]);
      EditorNeverEmpties(Apply(s, actions[0]), actions[1..]);
    }
  }

  /** Without the rendering guard a single removal empties a one-scene
      scenario. */
  lemma RemoveLastEmpties(scene: Scene)
    ensures RemoveScene(EditedScenario("", [scene]), 0).scenes == []
    ensures !Offered(EditedScenario("", [scene]), Remove(0))
  {
  }
}
