/**
 * The per-chat record as the plugin keeps it: one mutable object whose
 * fields the button and event handlers update in place. Every method is
 * proved to leave the record in the state the matching transition of module
 * Scene describes, so the lemmas proved there hold of the object.
 */
module Store {
  import opened Text
  import opened Scene
  import QueueCodec

  class ChatData {
    var status: Status
    var montage: bool
    var autoAction: bool
    var caution: string
    var currentScene: string
    var nextScene: string
    var corePrinciple: string
    var queue: seq<string>
    var rollbackData: Option<Snapshot>

    /** The record's current contents as a value. */
    function View(): Chat
      reads this
    {
      Chat(status, montage, autoAction, caution, currentScene, nextScene,
           corePrinciple, queue, rollbackData)
    }

    /** A fresh record with the default contents, its queue its own. */
    constructor ()
      ensures View() == DefaultChat
    {
      status := Ready;
      montage := false;
      autoAction := false;
      caution := "";
      currentScene := "";
      nextScene := "";
      corePrinciple := "";
      queue := [];
      rollbackData := None;
    }

    /** "Clear data": the record goes back to the default contents. */
    method Reset()
      modifies this
      ensures View() == DefaultChat
    {
      status, montage, autoAction := Ready, false, false;
      caution, currentScene, nextScene, corePrinciple := "", "", "", "";
      queue := [];
      rollbackData := None;
    }

    /**
     * CUT!: while the plugin is enabled, promote the scenes (below) and
     * report the next scene's preview; nothing happens while it is disabled.
     * The notice is the intended one (Scene.Notice). It differs from the
     * message the code shows exactly when the next scene is longer than 20
     * characters and its trim is not (Scene.NoticesDiffer).
     */
    method ExecuteCut(settings: Settings) returns (notice: CutNotice)
      modifies this
      ensures View() == Cut(old(View()), settings)
      ensures notice == Notice(old(View()), settings)
      ensures !(|old(nextScene)| > 20 && |Trim(old(nextScene))| <= 20) ==>
        notice == NoticeAsWritten(old(View()), settings)
    {
      NoticesDiffer(View(), settings);
      if !settings.enabled {
        return Disabled;
      }
      notice := Announce(Preview(nextScene));
      PromoteScenes(settings);
    }

    /**
     * The state change of CUT!: save the scenes and the queue for rollback,
     * promote the next scene, shift the head of the queue into the next scene
     * and restart at READY.
     */
    method PromoteScenes(settings: Settings)
      requires settings.enabled
      modifies this
      ensures View() == Cut(old(View()), settings)
    {
      rollbackData := Some(Snapshot(currentScene, nextScene, queue));
      currentScene := nextScene;
      if |queue| > 0 {
        nextScene := queue[0];
        queue := queue[1..];
      } else {
        nextScene := "";
      }
      status := Ready;
    }

    /**
     * Rollback: restore the saved scenes and queue and drop the snapshot;
     * reports whether there was a snapshot to restore.
     */
    method ExecuteRollback() returns (restored: bool)
      modifies this
      ensures View() == Rollback(old(View()))
      ensures restored <==> old(rollbackData).Some?
    {
      match rollbackData
      case None =>
        return false;
      case Some(snap) =>
        currentScene := snap.currentScene;
        nextScene := snap.nextScene;
        queue := snap.queue;
        rollbackData := None;
        return true;
    }

    /** The READY or ACTION button: ignored while montage is on. */
    method SelectStatus(choice: Status)
      modifies this
      ensures View() == Scene.SelectStatus(old(View()), choice)
    {
      if montage {
        return;
      }
      status := choice;
    }

    /** The MONTAGE button. */
    method ToggleMontage()
      modifies this
      ensures View() == Scene.ToggleMontage(old(View()))
    {
      montage := !montage;
    }

    /** The auto-action checkbox. */
    method SetAutoAction(on: bool)
      modifies this
      ensures View() == Scene.SetAutoAction(old(View()), on)
    {
      autoAction := on;
    }

    /**
     * A reply was received: with auto-action on, a READY scene outside
     * montage moves to ACTION. Reports whether it did.
     */
    method OnMessageReceived(settings: Settings) returns (switched: bool)
      modifies this
      ensures View() == ReplyReceived(old(View()), settings)
      ensures switched <==> AutoActionFires(old(View()), settings)
    {
      if !settings.enabled {
        return false;
      }
      switched := autoAction && status == Ready && !montage;
      if switched {
        status := Action;
      }
    }

    /** "Add": an empty scene at the end of the queue. */
    method AddQueueItem()
      modifies this
      ensures View() == old(View()).(queue := AddItem(old(queue)))
    {
      queue := queue + [""];
    }

    /** Edit of a queued scene; an index outside the queue is ignored. */
    method UpdateQueueItem(index: int, value: string)
      modifies this
      ensures View() == old(View()).(queue := UpdateItem(old(queue), index, value))
    {
      if 0 <= index < |queue| {
        queue := queue[index := value];
      }
    }

    /** Delete of a queued scene; an index outside the queue is ignored. */
    method DeleteQueueItem(index: int)
      modifies this
      ensures View() == old(View()).(queue := DeleteItem(old(queue), index))
    {
      if 0 <= index < |queue| {
        queue := queue[..index] + queue[index + 1..];
      }
    }

    /**
     * Move of a queued scene up (direction -1) or down (+1): a swap through
     * a temporary, skipped when the neighbour's position is outside the queue.
     */
    method MoveQueueItem(index: int, direction: int)
      requires 0 <= index < |queue|
      modifies this
      ensures View() == old(View()).(queue := MoveItem(old(queue), index, direction))
    {
      var newIndex := index + direction;
      if 0 <= newIndex < |queue| {
        var temp := queue[index];
        queue := queue[index := queue[newIndex]];
        queue := queue[newIndex := temp];
      }
    }

    /** "Clear": the queue becomes empty. */
    method ClearQueue()
      modifies this
      ensures View() == old(View()).(queue := [])
    {
      queue := [];
    }

    /**
     * "Import": the queue is replaced by the scenes read from a file's text;
     * reports how many there are.
     */
    method ImportQueue(content: string) returns (count: nat)
      modifies this
      ensures View() == Scene.ImportQueue(old(View()), content)
      ensures count == |queue|
    {
      queue := QueueCodec.Import(content);
      count := |queue|;
    }
  }
}
