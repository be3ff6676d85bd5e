/**
 * The plain-text form of the scene queue used by the queue editor's export
 * and import buttons: records joined with a newline, three dashes and a
 * newline; on import every record is trimmed and blank records are dropped.
 */
module QueueCodec {
  import opened Text

  /** The record separator of an exported queue. */
  const Separator: string := "\n---\n"

  /**
   * The text exportQueue writes for a queue: the scenes joined by the
   * separator. When no separator starts inside a scene, splitting the text
   * at the separator gives the scenes back.
   */
  function Export(queue: seq<string>): (r: string)
    ensures queue == [] ==> r == ""
    ensures queue != [] && Separable(queue) ==> Split(r, Separator) == queue
  {
    if queue != [] && Separable(queue) then
      SplitJoin(queue, Separator);
      Join(queue, Separator)
    else
      Join(queue, Separator)
  }

  /** Each part trimmed, in order. */
  function TrimEach(parts: seq<string>): (r: seq<string>)
    ensures |r| == |parts|
    ensures forall k :: 0 <= k < |r| ==> r[k] == Trim(parts[k])
  {
    if parts == [] then [] else [Trim(parts[0])] + TrimEach(parts[1..])
  }

  /** The non-empty parts, in their original order. */
  function DropEmpty(parts: seq<string>): (r: seq<string>)
    ensures |r| <= |parts|
    ensures forall k :: 0 <= k < |r| ==> r[k] != ""
    ensures (forall k :: 0 <= k < |parts| ==> parts[k] != "") ==> r == parts
  {
    if parts == [] then []
    else if parts[0] == "" then DropEmpty(parts[1..])
    else [parts[0]] + DropEmpty(parts[1..])
  }

  /**
   * `filter` works entry by entry, keeping order: filtering a concatenation
   * is the concatenation of the filtered parts, and a single entry is kept
   * exactly when it is not empty.
   */
  lemma {:induction false} DropEmptyAppend(a: seq<string>, b: seq<string>)
    ensures DropEmpty(a + b) == DropEmpty(a) + DropEmpty(b)
    ensures forall x :: DropEmpty([x]) == (if x == "" then [] else [x])
  {
    if a == [] {
      assert a + b == b;
    } else {
      assert (a + b)[1..] == a[1..] + b;
      DropEmptyAppend(a[1..], b);
    }
  }

  /** Every non-empty entry is kept as often as it occurs, and no empty one. */
  lemma {:induction false} DropEmptyKeepsNonEmpty(parts: seq<string>)
    ensures forall x :: x != "" ==> multiset(DropEmpty(parts))[x] == multiset(parts)[x]
    ensures multiset(DropEmpty(parts))[""] == 0
  {
    if parts != [] {
      DropEmptyKeepsNonEmpty(parts[1..]);
      assert parts == [parts[0]] + parts[1..];
    }
  }

  /** The queue importQueue builds from a file's text. */
  function Import(content: string): (scenes: seq<string>)
    ensures forall k :: 0 <= k < |scenes| ==> scenes[k] != "" && IsTrimmed(scenes[k])
  {
    var trimmed := TrimEach(Split(content, Separator));
    DropEmptyKeepsTrimmed(trimmed);
    DropEmpty(trimmed)
  }

  /** Dropping the empty parts of trimmed parts leaves trimmed parts. */
  lemma {:induction false} DropEmptyKeepsTrimmed(parts: seq<string>)
    requires forall k :: 0 <= k < |parts| ==> IsTrimmed(parts[k])
    ensures forall k :: 0 <= k < |DropEmpty(parts)| ==> IsTrimmed(DropEmpty(parts)[k])
  {
    if parts != [] {
      DropEmptyKeepsTrimmed(parts[1..]);
    }
  }

  /**
   * No separator starts inside an entry of an exported queue: none inside an
   * entry, and none formed by an entry's end together with the separator
   * written after it (an entry ending in a newline and three dashes would
   * form one). The last entry has no separator after it.
   */
  predicate Separable(queue: seq<string>) {
    && (forall k :: 0 <= k < |queue| - 1 ==>
          NoSepIn(queue[k] + Separator[..|Separator| - 1], Separator))
    && (|queue| > 0 ==> NoSepIn(queue[|queue| - 1], Separator))
  }

  /** A queue that survives an export and a re-import unchanged: separable, its scenes trimmed and not empty. */
  predicate Exportable(queue: seq<string>) {
    && Separable(queue)
    && forall k :: 0 <= k < |queue| ==> queue[k] != "" && IsTrimmed(queue[k])
  }

  /**
   * Importing an export gives the queue back trimmed and without its blank
   * entries, provided no separator starts inside an entry.
   */
  lemma {:induction false} ImportExportNormalizes(queue: seq<string>)
    requires Separable(queue)
    ensures Import(Export(queue)) == DropEmpty(TrimEach(queue))
  {
    if queue == [] {
      assert Split("", Separator) == [""];
      assert TrimEach([""]) == [""];
    } else {
      SplitJoin(queue, Separator);
    }
  }

  /** An exportable queue survives an export and a re-import unchanged. */
  lemma {:induction false} ImportExport(queue: seq<string>)
    requires Exportable(queue)
    ensures Import(Export(queue)) == queue
  {
    ImportExportNormalizes(queue);
    TrimEachOfTrimmed(queue);
  }

  /** Trimming parts that are already trimmed changes nothing. */
  lemma {:induction false} TrimEachOfTrimmed(parts: seq<string>)
    requires forall k :: 0 <= k < |parts| ==> IsTrimmed(parts[k])
    ensures TrimEach(parts) == parts
  {
    forall k | 0 <= k < |parts| ensures TrimEach(parts)[k] == parts[k] {
      TrimOfTrimmed(parts[k]);
    }
  }

  /** The last scene may end in a newline and three dashes: no separator follows it. */
  lemma LastSceneEndingInDashesSurvives()
    ensures Import(Export(["y", "x\n---"])) == ["y", "x\n---"]
  {
    var q := ["y", "x\n---"];
    assert NoSepIn(q[0] + Separator[..|Separator| - 1], Separator) by {
      var w := q[0] + Separator[..|Separator| - 1];
      assert |w| == |Separator| && w[0] != Separator[0];
    }
    assert NoSepIn(q[1], Separator) by {
      assert |q[1]| == |Separator| && q[1][0] != Separator[0];
    }
    assert IsTrimmed(q[0]) && IsTrimmed(q[1]);
    ImportExport(q);
  }

  /**
   * Without the condition on an entry's end the round trip fails: a scene
   * ending in a newline and three dashes merges with the separator after it.
   */
  lemma SceneEndingInDashesSplits()
    ensures Import(Export(["x\n---", "y"])) == ["x", "---\ny"]
  {
    ExportOfDashesSplits();
    var parts := ["x", "---\ny"];
    assert IsTrimmed(parts[0]) && IsTrimmed(parts[1]);
    TrimEachOfTrimmed(parts);
    assert parts[0] != "" && parts[1] != "";
  }

  /** The split half of SceneEndingInDashesSplits. */
  lemma ExportOfDashesSplits()
    ensures Split(Export(["x\n---", "y"]), Separator) == ["x", "---\ny"]
  {
    var a, b := "x", "---\ny";
    assert Export(["x\n---", "y"]) == a + Separator + b by {
      assert Join(["y"], Separator) == "y";
      assert "x\n---" + Separator + "y" == a + Separator + b;
    }
    assert NoSepIn(a + Separator[..|Separator| - 1], Separator) by {
      var w := a + Separator[..|Separator| - 1];
      assert |w| == |Separator|;
      assert w[0] != Separator[0];
    }
    SplitAtFirstSep(a, b, Separator);
    assert NoSepIn(b, Separator) by {
      assert |b| == |Separator|;
      assert b[0] != Separator[0];
    }
    SplitWithoutSep(b, Separator);
  }

  /** A file with no usable record imports as an empty queue. */
  lemma {:induction false} BlankFileImportsEmpty(content: string)
    requires IsBlank(content)
    ensures Import(content) == []
  {
    assert NoSepIn(content, Separator) by {
      forall i | 0 <= i <= |content| - |Separator|
        ensures !OccursAt(content, Separator, i)
      {
        assert content[i..i + |Separator|][1] == content[i + 1];
        assert IsSpace(content[i + 1]);
      }
    }
    SplitWithoutSep(content, Separator);
    TrimEmptyIffBlank(content);
  }
}
