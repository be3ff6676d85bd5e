/**
 * The per-chat scene-director record as a value, and every change the plugin
 * makes to it as a pure transition: the CUT! promotion with its single-level
 * undo, the status and montage buttons, the auto-action on a received reply
 * and the queue editor. The class in module Store performs these changes in
 * place and is proved against the functions here.
 */
module Scene {
  import opened Text
  import FixedTexts
  import QueueCodec

  /** The writing phase of the current scene. */
  datatype Status = Ready | Action

  datatype Option<T> = None | Some(value: T)

  /** What CUT! saves so that it can be undone. */
  datatype Snapshot = Snapshot(currentScene: string, nextScene: string, queue: seq<string>)

  /** The per-chat record kept in the chat's metadata. */
  datatype Chat = Chat(
    status: Status,
    montage: bool,
    autoAction: bool,
    caution: string,
    currentScene: string,
    nextScene: string,
    corePrinciple: string,
    queue: seq<string>,
    rollbackData: Option<Snapshot>)

  /** The global settings of the plugin. */
  datatype Settings = Settings(
    enabled: bool,
    quickButtonEnabled: bool,
    shortcutEnabled: bool,
    finalCheckPrompt: string)

  /** The record a chat starts with. */
  const DefaultChat: Chat := Chat(Ready, false, false, "", "", "", "", [], None)

  /** The settings the plugin starts with. */
  const DefaultSettings: Settings := Settings(true, true, true, FixedTexts.DefaultFinalCheck)

  // ---------------------------------------------------------------------
  // CUT! and rollback
  // ---------------------------------------------------------------------

  /**
   * CUT!: when the plugin is enabled, save the scenes and the queue, promote
   * the next scene to the current one, take the next scene from the head of
   * the queue (or leave it empty) and restart the phase at READY.
   */
  function Cut(c: Chat, settings: Settings): Chat {
    if !settings.enabled then c
    else
      c.(rollbackData := Some(Snapshot(c.currentScene, c.nextScene, c.queue)),
         currentScene := c.nextScene,
         nextScene := if |c.queue| > 0 then c.queue[0] else "",
         queue := if |c.queue| > 0 then c.queue[1..] else [],
         status := Ready)
  }

  /** Rollback: restore the saved scenes and queue and forget the snapshot. */
  function Rollback(c: Chat): Chat {
    match c.rollbackData
    case None => c
    case Some(snap) =>
      c.(currentScene := snap.currentScene,
         nextScene := snap.nextScene,
         queue := snap.queue,
         rollbackData := None)
  }

  /** The scenes still to be played: the next scene, then the queue. */
  function Upcoming(c: Chat): seq<string> {
    [c.nextScene] + c.queue
  }

  /** n presses of CUT! in a row. */
  function Cuts(c: Chat, settings: Settings, n: nat): Chat {
    if n == 0 then c else Cut(Cuts(c, settings, n - 1), settings)
  }

  /**
   * An enabled CUT! saves the old scenes and queue, makes the old next
   * scene current, moves the queue up by one (the next scene becomes the
   * old head, or empty), sets READY and leaves every other field alone.
   */
  lemma {:induction false} CutPromotes(c: Chat, settings: Settings)
    requires settings.enabled
    ensures var r := Cut(c, settings);
      && r.rollbackData == Some(Snapshot(c.currentScene, c.nextScene, c.queue))
      && r.currentScene == c.nextScene
      && (c.queue == [] ==> r.nextScene == "" && r.queue == [])
      && (c.queue != [] ==> [r.nextScene] + r.queue == c.queue)
      && r.status == Ready
      && r.montage == c.montage && r.autoAction == c.autoAction
      && r.caution == c.caution && r.corePrinciple == c.corePrinciple
  {
    if c.queue != [] {
      assert [c.queue[0]] + c.queue[1..] == c.queue;
    }
  }

  /** A disabled CUT! changes nothing. */
  lemma {:induction false} CutWhileDisabled(c: Chat, settings: Settings)
    requires !settings.enabled
    ensures Cut(c, settings) == c
  {
  }

  /**
   * Rollback with a snapshot puts back the saved scenes and queue, clears
   * the snapshot and keeps the phase, the montage flag and the other fields;
   * without a snapshot it changes nothing.
   */
  lemma {:induction false} RollbackRestores(c: Chat)
    ensures var r := Rollback(c);
      && r.rollbackData == None
      && r.status == c.status && r.montage == c.montage && r.autoAction == c.autoAction
      && r.caution == c.caution && r.corePrinciple == c.corePrinciple
      && (c.rollbackData == None ==> r == c)
      && (c.rollbackData.Some? ==>
            Snapshot(r.currentScene, r.nextScene, r.queue) == c.rollbackData.value)
  {
  }

  /**
   * Rolling back a CUT! gives back the scenes and the queue as they were;
   * only the phase stays at READY and the snapshot is gone.
   */
  lemma {:induction false} RollbackUndoesCut(c: Chat, settings: Settings)
    requires settings.enabled
    ensures Rollback(Cut(c, settings)) == c.(status := Ready, rollbackData := None)
  {
  }

  /** There is one level of undo: a second rollback changes nothing. */
  lemma {:induction false} RollbackOnce(c: Chat)
    ensures Rollback(Rollback(c)) == Rollback(c)
  {
  }

  /**
   * Only the latest CUT! can be undone: after two cuts a rollback returns
   * to the state the first one produced, not to the one before it.
   */
  lemma {:induction false} SingleLevelUndo(c: Chat, settings: Settings)
    requires settings.enabled
    ensures var once := Cut(c, settings);
      Rollback(Cut(once, settings)) == once.(rollbackData := None)
  {
  }

  /**
   * Pressing CUT! n times, while no more than the queue's length, plays the
   * upcoming scenes in order: the n-th upcoming scene becomes current and the
   * rest stay upcoming in the same order.
   */
  lemma {:induction false} CutsPlayInOrder(c: Chat, settings: Settings, n: nat)
    requires settings.enabled && n <= |c.queue|
    ensures Upcoming(Cuts(c, settings, n)) == Upcoming(c)[n..]
    ensures n > 0 ==> Cuts(c, settings, n).currentScene == Upcoming(c)[n - 1]
  {
    if n > 0 {
      CutsPlayInOrder(c, settings, n - 1);
      var before := Cuts(c, settings, n - 1);
      assert |Upcoming(before)| == |Upcoming(c)| - (n - 1);
      assert before.queue == Upcoming(before)[1..];
      calc {
        Upcoming(Cuts(c, settings, n));
        [before.queue[0]] + before.queue[1..];
        Upcoming(before)[1..];
        Upcoming(c)[n..];
      }
    }
  }

  // ---------------------------------------------------------------------
  // Cut notice: the message shown after CUT!
  // ---------------------------------------------------------------------

  /** The message CUT! shows. */
  datatype CutNotice =
    | Disabled               // the plugin is off and nothing happened
    | NoNextScene            // the cut went through with no scene to go to
    | Proceeding(preview: string)  // the cut went through to the previewed scene

  /** The first 20 characters of s, like `s.substring(0, 20)`. */
  function First20(s: string): (r: string)
    ensures |r| <= |s| && |r| <= 20 && r == s[..|r|]
    ensures |s| <= 20 ==> r == s
    ensures |s| > 20 ==> |r| == 20
  {
    if |s| <= 20 then s else s[..20]
  }

  /**
   * The preview as the code computes it: the first 20 characters of the
   * trimmed next scene, followed by an ellipsis when the UNTRIMMED next scene
   * is longer than 20 characters.
   */
  function PreviewAsWritten(nextScene: string): (r: string)
    ensures |nextScene| <= 20 ==> r == Trim(nextScene)
    ensures |nextScene| > 20 ==> 3 <= |r| <= 23 && r[|r| - 3..] == "..."
  {
    First20(Trim(nextScene)) + (if |nextScene| > 20 then "..." else "")
  }

  /** The message after an enabled CUT!: the preview when there is one. */
  function Announce(preview: string): CutNotice {
    if preview != "" then Proceeding(preview) else NoNextScene
  }

  /**
   * The notice the code shows after CUT!, built from the as-written preview:
   * "disabled" exactly when the plugin is off; once enabled, a next scene
   * longer than 20 characters is always announced, blank or not, and a
   * shorter one is reported missing exactly when it is blank.
   */
  function NoticeAsWritten(c: Chat, settings: Settings): (r: CutNotice)
    ensures r == Disabled <==> !settings.enabled
    ensures settings.enabled && |c.nextScene| > 20 ==> r.Proceeding?
    ensures settings.enabled && |c.nextScene| <= 20 ==> (r == NoNextScene <==> IsBlank(c.nextScene))
    ensures r.Proceeding? ==> r.preview == PreviewAsWritten(c.nextScene)
  {
    TrimEmptyIffBlank(c.nextScene);
    if !settings.enabled then Disabled else Announce(PreviewAsWritten(c.nextScene))
  }

  /**
   * The preview as evidently intended: the first 20 characters of the
   * trimmed next scene, with an ellipsis when something was cut off.
   */
  function Preview(nextScene: string): string {
    var t := Trim(nextScene);
    First20(t) + (if |t| > 20 then "..." else "")
  }

  /** The notice CUT! is meant to show: the message built from the intended preview. */
  function Notice(c: Chat, settings: Settings): CutNotice {
    if !settings.enabled then Disabled else Announce(Preview(c.nextScene))
  }

  /**
   * The intended preview is the start of the trimmed next scene, with an
   * ellipsis exactly when that scene is longer than 20 characters.
   */
  lemma {:induction false} PreviewShowsStart(nextScene: string)
    ensures var p := Preview(nextScene); var t := Trim(nextScene);
      && (|t| <= 20 ==> p == t)
      && (|t| > 20 ==> p == t[..20] + "...")
  {
  }

  /**
   * The intended notice reports that there is no next scene exactly when
   * the next scene is blank, and "disabled" exactly when the plugin is off.
   */
  lemma {:induction false} NoticeReportsBlankNextScene(c: Chat, settings: Settings)
    ensures Notice(c, settings) == Disabled <==> !settings.enabled
    ensures settings.enabled ==>
      (Notice(c, settings) == NoNextScene <==> IsBlank(c.nextScene))
  {
    TrimEmptyIffBlank(c.nextScene);
  }

  /** On a next scene without surrounding whitespace the two previews agree. */
  lemma {:induction false} PreviewAsWrittenOnTrimmed(nextScene: string)
    requires IsTrimmed(nextScene)
    ensures PreviewAsWritten(nextScene) == Preview(nextScene)
  {
    TrimOfTrimmed(nextScene);
  }

  /**
   * The code's preview differs from the intended one exactly when the
   * untrimmed next scene is longer than 20 characters but its trim is not:
   * then the code puts an ellipsis after the whole trimmed scene.
   */
  lemma {:induction false} PreviewsDiffer(nextScene: string)
    ensures PreviewAsWritten(nextScene) ==
      (if |nextScene| > 20 && |Trim(nextScene)| <= 20 then Trim(nextScene) + "..." else Preview(nextScene))
    ensures PreviewAsWritten(nextScene) != Preview(nextScene) <==>
      |nextScene| > 20 && |Trim(nextScene)| <= 20
  {
  }

  /**
   * The code's CUT! notice differs from the intended one exactly when the
   * plugin is enabled and the next scene is longer than 20 characters with
   * a trim of at most 20.
   */
  lemma {:induction false} NoticesDiffer(c: Chat, settings: Settings)
    ensures NoticeAsWritten(c, settings) != Notice(c, settings) <==>
      settings.enabled && |c.nextScene| > 20 && |Trim(c.nextScene)| <= 20
  {
    PreviewsDiffer(c.nextScene);
  }

  /**
   * As written, a blank next scene longer than 20 characters (21 spaces,
   * say) is announced as the scene "..." although there is no next scene:
   * the ellipsis test looks at the untrimmed length.
   */
  lemma {:induction false} BlankNextSceneAnnouncedAsWritten(c: Chat, settings: Settings)
    requires settings.enabled
    requires IsBlank(c.nextScene) && |c.nextScene| > 20
    ensures NoticeAsWritten(c, settings) == Proceeding("...")
    ensures Notice(c, settings) == NoNextScene
  {
    TrimEmptyIffBlank(c.nextScene);
    PreviewsDiffer(c.nextScene);
    assert PreviewAsWritten(c.nextScene) == "" + "...";
  }

  // ---------------------------------------------------------------------
  // Status, montage and auto-action
  // ---------------------------------------------------------------------

  /** The READY and ACTION buttons: ignored while montage is on. */
  function SelectStatus(c: Chat, status: Status): Chat {
    if c.montage then c else c.(status := status)
  }

  /** The MONTAGE button. */
  function ToggleMontage(c: Chat): Chat {
    c.(montage := !c.montage)
  }

  /** The auto-action checkbox. */
  function SetAutoAction(c: Chat, on: bool): Chat {
    c.(autoAction := on)
  }

  /** Whether a received reply moves the scene from READY to ACTION. */
  predicate AutoActionFires(c: Chat, settings: Settings) {
    settings.enabled && c.autoAction && c.status == Ready && !c.montage
  }

  /** The reaction to a received reply. */
  function ReplyReceived(c: Chat, settings: Settings): Chat {
    if !settings.enabled then c
    else if c.autoAction && c.status == Ready && !c.montage then c.(status := Action)
    else c
  }

  /**
   * While montage is on the READY and ACTION buttons change nothing;
   * otherwise they set the phase and nothing else.
   */
  lemma {:induction false} StatusButtons(c: Chat, status: Status)
    ensures c.montage ==> SelectStatus(c, status) == c
    ensures !c.montage ==>
      SelectStatus(c, status).status == status &&
      SelectStatus(c, status).(status := c.status) == c
  {
  }

  /**
   * The MONTAGE button flips montage and nothing else, so pressing it twice
   * changes nothing and the phase chosen before montage is still there after.
   */
  lemma {:induction false} MontageToggle(c: Chat)
    ensures ToggleMontage(c).montage != c.montage
    ensures ToggleMontage(c).(montage := c.montage) == c
    ensures ToggleMontage(ToggleMontage(c)) == c
  {
  }

  /**
   * A received reply changes the record exactly when auto-action is due,
   * and then only by moving the phase to ACTION; a second reply changes
   * nothing more.
   */
  lemma {:induction false} AutoActionTrigger(c: Chat, settings: Settings)
    ensures var r := ReplyReceived(c, settings);
      && (r != c <==> AutoActionFires(c, settings))
      && (AutoActionFires(c, settings) ==> r == c.(status := Action))
      && ReplyReceived(r, settings) == r
  {
  }

  // ---------------------------------------------------------------------
  // Queue editor
  // ---------------------------------------------------------------------

  /** "Add": a new empty scene at the end of the queue. */
  function AddItem(queue: seq<string>): seq<string> {
    queue + [""]
  }

  /** Edit of the scene at index; an index outside the queue is ignored. */
  function UpdateItem(queue: seq<string>, index: int, value: string): seq<string> {
    if 0 <= index < |queue| then queue[index := value] else queue
  }

  /** Delete of the scene at index; an index outside the queue is ignored. */
  function DeleteItem(queue: seq<string>, index: int): seq<string> {
    if 0 <= index < |queue| then queue[..index] + queue[index + 1..] else queue
  }

  /**
   * Move of the scene at index by direction (-1 up, +1 down): a swap with
   * its neighbour, ignored when the neighbour's position is outside the queue.
   */
  function MoveItem(queue: seq<string>, index: int, direction: int): seq<string>
    requires 0 <= index < |queue|
  {
    var target := index + direction;
    if 0 <= target < |queue| then queue[index := queue[target]][target := queue[index]]
    else queue
  }

  /** "Add" puts one empty scene after the existing ones. */
  lemma {:induction false} AddAppendsEmpty(queue: seq<string>)
    ensures |AddItem(queue)| == |queue| + 1
    ensures AddItem(queue)[..|queue|] == queue && AddItem(queue)[|queue|] == ""
  {
  }

  /**
   * An edit inside the queue replaces that one scene; one outside changes
   * nothing.
   */
  lemma {:induction false} UpdateReplacesOne(queue: seq<string>, index: int, value: string)
    ensures var r := UpdateItem(queue, index, value);
      && |r| == |queue|
      && (0 <= index < |queue| ==> r[index] == value)
      && (forall k :: 0 <= k < |queue| && k != index ==> r[k] == queue[k])
  {
  }

  /**
   * A delete inside the queue removes that one scene and keeps the others in
   * order; one outside changes nothing.
   */
  lemma {:induction false} DeleteRemovesOne(queue: seq<string>, index: int)
    ensures var r := DeleteItem(queue, index);
      && (!(0 <= index < |queue|) ==> r == queue)
      && (0 <= index < |queue| ==>
            |r| == |queue| - 1 && multiset(r) + multiset{queue[index]} == multiset(queue)
            && (forall k :: 0 <= k < index ==> r[k] == queue[k])
            && (forall k :: index <= k < |r| ==> r[k] == queue[k + 1]))
  {
    if 0 <= index < |queue| {
      assert queue == queue[..index] + [queue[index]] + queue[index + 1..];
    }
  }

  /**
   * A move keeps the same scenes (a permutation): it exchanges the scene with
   * its neighbour when there is one and otherwise changes nothing.
   */
  lemma {:induction false} MoveKeepsScenes(queue: seq<string>, index: int, direction: int)
    requires 0 <= index < |queue|
    ensures var r := MoveItem(queue, index, direction); var target := index + direction;
      && |r| == |queue|
      && multiset(r) == multiset(queue)
      && (0 <= target < |queue| ==>
            r[index] == queue[target] && r[target] == queue[index]
            && (forall k :: 0 <= k < |queue| && k != index && k != target ==> r[k] == queue[k]))
      && (!(0 <= target < |queue|) ==> r == queue)
  {
    var target := index + direction;
    if 0 <= target < |queue| {
      SwapKeepsScenes(queue, index, target);
    }
  }

  /** Exchanging two entries of a sequence keeps its multiset. */
  lemma {:induction false} SwapKeepsScenes(queue: seq<string>, i: int, j: int)
    requires 0 <= i < |queue| && 0 <= j < |queue|
    ensures multiset(queue[i := queue[j]][j := queue[i]]) == multiset(queue)
  {
    if i != j {
      var mid := queue[i := queue[j]];
      assert multiset(mid) == multiset(queue) - multiset{queue[i]} + multiset{queue[j]};
      assert mid[j] == queue[j];
    }
  }

  /** Moving a scene and moving it back restores the queue. */
  lemma {:induction false} MoveBack(queue: seq<string>, index: int, direction: int)
    requires 0 <= index < |queue| && 0 <= index + direction < |queue|
    ensures MoveItem(MoveItem(queue, index, direction), index + direction, -direction) == queue
  {
  }

  /** The queue as set by "Import" from a file's text. */
  function ImportQueue(c: Chat, content: string): Chat {
    c.(queue := QueueCodec.Import(content))
  }

  /**
   * After an import the queue holds only trimmed, non-empty scenes, and a
   * queue of exportable scenes survives its own export and import.
   */
  lemma {:induction false} ImportReplacesQueue(c: Chat, content: string)
    ensures var r := ImportQueue(c, content);
      && r.(queue := c.queue) == c
      && forall k :: 0 <= k < |r.queue| ==> r.queue[k] != "" && IsTrimmed(r.queue[k])
    ensures QueueCodec.Exportable(c.queue) ==>
      ImportQueue(c, QueueCodec.Export(c.queue)) == c
  {
    if QueueCodec.Exportable(c.queue) {
      QueueCodec.ImportExport(c.queue);
    }
  }
}
