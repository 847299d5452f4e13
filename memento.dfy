/**
 * The Memento pattern: a file-writing utility (the originator) that appends
 * to its content, snapshots itself into a memento and restores from one,
 * and a caretaker that keeps the last snapshot.
 */
module MementoPattern {

  import opened Wrappers

  /** A snapshot of the writer's two attributes. */
  datatype Memento = Memento(file: string, content: string)

  /** The file-writing utility. */
  class Writer {
    var file: string
    var content: string

    /** A writer for the given path starts with empty content. */
    constructor (filePath: string)
      ensures file == filePath && content == ""
    {
      file := filePath;
      content := "";
    }

    /** Appends to the content; the path does not change. */
    method Write(s: string)
      modifies this
      ensures content == old(content) + s
      ensures file == old(file)
    {
      content := content + s;
    }

    /** A memento holding the current path and content. */
    method Save() returns (m: Memento)
      ensures m.file == file && m.content == content
    {
      m := Memento(file, content);
    }

    /** Restores both attributes from a memento. */
    method Undo(m: Memento)
      modifies this
      ensures file == m.file && content == m.content
    {
      file := m.file;
      content := m.content;
    }
  }

  /** The caretaker; its memento slot is absent until the first save. */
  class Caretaker {
    var mem: Option<Memento>

    constructor ()
      ensures mem == None
    {
      mem := None;
    }

    /** Keeps a snapshot of the writer, replacing any earlier one; the writer is untouched. */
    method Save(x: Writer)
      modifies this
      ensures mem == Some(Memento(x.file, x.content))
    {
      var m := x.Save();
      mem := Some(m);
    }

    /**
     * Restores the writer from the kept snapshot. Before any save the slot
     * does not exist and the call fails with an AttributeError, changing nothing.
     */
    method Undo(x: Writer) returns (r: Result<()>)
      modifies x
      ensures mem == None ==> r.Failure? && r.error.kind == "AttributeError"
      ensures mem == None ==> x.file == old(x.file) && x.content == old(x.content)
      ensures mem.Some? ==> r == Success(()) && x.file == mem.value.file && x.content == mem.value.content
    {
      if mem == None {
        return Failure(PyError("AttributeError", "'Y' object has no attribute 'mem'"));
      }
      x.Undo(mem.value);
      return Success(());
    }
  }

  /**
   * Save, then any later write, then undo: the writer is back to its state
   * at the save, and the later write is gone.
   */
  method SaveWriteUndo(x: Writer, y: Caretaker, later: string) returns (r: Result<()>)
    modifies x, y
    ensures r.Success?
    ensures x.file == old(x.file) && x.content == old(x.content)
  {
    y.Save(x);
    x.Write(later);
    r := y.Undo(x);
  }

  /** Undoing twice gives the same state as undoing once. */
  method UndoTwice(x: Writer, y: Caretaker) returns (first: Result<()>, second: Result<()>)
    requires y.mem.Some?
    modifies x
    ensures first == second == Success(())
    ensures x.file == y.mem.value.file && x.content == y.mem.value.content
  {
    first := y.Undo(x);
    ghost var afterFirst := (x.file, x.content);
    second := y.Undo(x);
    assert (x.file, x.content) == afterFirst;
  }

  /** The demo run: write, save, write again, undo. */
  method Demo() returns (shown: seq<string>)
    ensures shown == ["First vision of Data\n\n\n", "First vision of Data\nSecond vision of Data\n\n\n", "First vision of Data\n\n\n"]
  {
    var y := new Caretaker();
    var x := new Writer("GFG.txt");
    x.Write("First vision of Data\n");
    assert x.content == "First vision of Data\n";
    shown := [x.content + "\n\n"];
    y.Save(x);
    x.Write("Second vision of Data\n");
    assert x.content == "First vision of Data\nSecond vision of Data\n";
    shown := shown + [x.content + "\n\n"];
    var r := y.Undo(x);
    assert x.content == "First vision of Data\n";
    shown := shown + [x.content + "\n\n"];
    assert shown[0] == "First vision of Data\n\n\n";
    assert shown[1] == "First vision of Data\nSecond vision of Data\n\n\n";
    assert shown[2] == "First vision of Data\n\n\n";
    assert |shown| == 3;
  }
}
