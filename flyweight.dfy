/**
 * The two Flyweight examples: a factory that caches one flyweight per
 * intrinsic state in a dictionary, and a shape factory that caches one
 * circle per colour in a dictionary of lists, with a client that re-uses
 * (and re-positions) the shared circle for every drawing of that colour.
 */
module FlyweightPattern {

  import opened Text

  // ---------------------------------------------------------------------
  // FlyweightFactory

  /** A flyweight: its intrinsic state is fixed when it is made. */
  class ConcreteFlyweight {
    const intrinsicState: int

    constructor (intrinsicState: int)
      ensures this.intrinsicState == intrinsicState
    {
      this.intrinsicState := intrinsicState;
    }

    /** Prints the intrinsic state and the extrinsic state, separated by a space. */
    method Operation(extrinsicState: int) returns (line: string)
      ensures line == IntToString(intrinsicState) + " " + IntToString(extrinsicState)
    {
      line := IntToString(intrinsicState) + " " + IntToString(extrinsicState);
    }
  }

  class FlyweightFactory {
    var flyweights: map<int, ConcreteFlyweight>

    /** Every cached flyweight is filed under its own intrinsic state. */
    ghost predicate Valid()
      reads this
    {
      forall k :: k in flyweights ==> flyweights[k].intrinsicState == k
    }

    constructor ()
      ensures Valid() && flyweights == map[]
    {
      flyweights := map[];
    }

    /**
     * The flyweight for an intrinsic state: made and cached on the first request
     * for that state, the cached one on every later request. Other entries are untouched.
     */
    method GetFly(intrinsicState: int) returns (f: ConcreteFlyweight)
      requires Valid()
      modifies this
      ensures Valid()
      ensures f.intrinsicState == intrinsicState
      ensures intrinsicState in old(flyweights) ==> f == old(flyweights)[intrinsicState] && flyweights == old(flyweights)
      ensures intrinsicState !in old(flyweights) ==> fresh(f) && flyweights == old(flyweights)[intrinsicState := f]
    {
      if intrinsicState !in flyweights {
        var made := new ConcreteFlyweight(intrinsicState);
        flyweights := flyweights[intrinsicState := made];
      }
      f := flyweights[intrinsicState];
    }
  }

  /** A second request for the same state returns the very same flyweight object. */
  method GetFlyTwice(factory: FlyweightFactory, k: int) returns (f1: ConcreteFlyweight, f2: ConcreteFlyweight)
    requires factory.Valid()
    modifies factory
    ensures f1 == f2 && k in factory.flyweights && factory.flyweights[k] == f1
    ensures factory.flyweights.Keys == old(factory.flyweights.Keys) + {k}
  {
    f1 := factory.GetFly(k);
    f2 := factory.GetFly(k);
  }

  /** The client of the dictionary-backed factory. */
  class FlyweightClient {
    const factory: FlyweightFactory

    constructor (factory: FlyweightFactory)
      ensures this.factory == factory
    {
      this.factory := factory;
    }

    /** Fetches the flyweights for states 1 and 2 and runs one operation on each. */
    method Operation(extrinsicState1: int, extrinsicState2: int) returns (lines: seq<string>)
      requires factory.Valid()
      modifies factory
      ensures factory.Valid() && factory.flyweights.Keys == old(factory.flyweights.Keys) + {1, 2}
      ensures forall k :: k in old(factory.flyweights) ==> factory.flyweights[k] == old(factory.flyweights)[k]
      ensures forall k :: k in factory.flyweights && k !in old(factory.flyweights) ==> fresh(factory.flyweights[k])
      ensures lines == ["1 " + IntToString(extrinsicState1), "2 " + IntToString(extrinsicState2)]
    {
      var fly1 := factory.GetFly(1);
      var fly2 := factory.GetFly(2);
      var line1 := fly1.Operation(extrinsicState1);
      var line2 := fly2.Operation(extrinsicState2);
      assert IntToString(1) == "1" && IntToString(2) == "2";
      assert line1 == "1 " + IntToString(extrinsicState1);
      assert line2 == "2 " + IntToString(extrinsicState2);
      lines := [line1, line2];
    }
  }

  // ---------------------------------------------------------------------
  // ShapeFactory

  /** A circle; its position and radius are changed by the client, its colour never is. */
  class Circle {
    var x: int
    var y: int
    var radius: int
    const color: string

    constructor (x: int, y: int, radius: int, color: string)
      ensures this.x == x && this.y == y && this.radius == radius && this.color == color
    {
      this.x, this.y, this.radius, this.color := x, y, radius, color;
    }

    method Draw() returns (line: string)
      ensures line == DrawLine(color, x, y, radius)
    {
      line := DrawLine(color, x, y, radius);
    }
  }

  function DrawLine(color: string, x: int, y: int, radius: int): string {
    "Drawing a circle with color " + color + " at (" + IntToString(x) + ", " + IntToString(y)
      + ") with radius " + IntToString(radius)
  }

  class ShapeFactory {
    var shapes: map<string, seq<Circle>>
    /** The circles the factory has handed out. */
    ghost var Circles: set<Circle>

    /** Every colour's list holds exactly one circle, of that colour. */
    ghost predicate Valid()
      reads this
    {
      forall c :: c in shapes ==> |shapes[c]| == 1 && shapes[c][0].color == c && shapes[c][0] in Circles
    }

    constructor ()
      ensures Valid() && shapes == map[] && Circles == {}
    {
      shapes := map[];
      Circles := {};
    }

    /**
     * The circle for a colour: on the first request an empty list is filed under
     * the colour and a circle at (0, 0) with radius 0 appended; the last circle of
     * the list is returned, so every later request gets that same circle.
     */
    method GetShape(color: string) returns (c: Circle)
      requires Valid()
      modifies this
      ensures Valid()
      ensures color in shapes && shapes[color] == [c] && c.color == color
      ensures shapes.Keys == old(shapes.Keys) + {color}
      ensures forall k :: k in old(shapes) ==> shapes[k] == old(shapes)[k]
      ensures color !in old(shapes) ==> fresh(c) && c.x == 0 && c.y == 0 && c.radius == 0
      ensures Circles == old(Circles) + {c} && fresh(Circles - old(Circles))
    {
      if color !in shapes {
        shapes := shapes[color := []];
      }
      if shapes[color] == [] {
        var circle := new Circle(0, 0, 0, color);
        shapes := shapes[color := shapes[color] + [circle]];
        Circles := Circles + {circle};
      }
      c := shapes[color][|shapes[color]| - 1];
    }
  }

  /** One entry of the client's input: a colour, a position and a radius. */
  datatype ShapeData = ShapeData(color: string, x: int, y: int, radius: int)

  /** Where each colour's circle ends up: the last entry of that colour. */
  function Placement(data: seq<ShapeData>): map<string, ShapeData>
  {
    if data == [] then map[]
    else Placement(data[..|data| - 1])[data[|data| - 1].color := data[|data| - 1]]
  }

  /** A colour is placed exactly when some entry has it. */
  lemma {:induction false} PlacementKeys(data: seq<ShapeData>, c: string)
    ensures c in Placement(data) <==> exists k :: 0 <= k < |data| && data[k].color == c
  {
    if data != [] {
      var n := |data| - 1;
      PlacementKeys(data[..n], c);
      if c !in Placement(data) {
        assert forall k :: 0 <= k < n ==> data[k] == data[..n][k];
      }
      if exists k :: 0 <= k < |data| && data[k].color == c {
        var k :| 0 <= k < |data| && data[k].color == c;
        if k < n {
          assert data[..n][k].color == c;
        }
      }
    }
  }

  /** A placed colour holds the entry of that colour with the highest index. */
  lemma {:induction false} PlacementIsLastEntry(data: seq<ShapeData>, c: string)
    requires c in Placement(data)
    ensures exists k :: 0 <= k < |data| && Placement(data)[c] == data[k] && forall j :: k < j < |data| ==> data[j].color != c
  {
    var n := |data| - 1;
    if data[n].color == c {
      assert Placement(data)[c] == data[n];
    } else {
      var prefix := data[..n];
      assert Placement(data) == Placement(prefix)[data[n].color := data[n]];
      PlacementIsLastEntry(prefix, c);
      var k :| 0 <= k < n && Placement(prefix)[c] == prefix[k]
               && forall j :: k < j < n ==> prefix[j].color != c;
      forall j | k < j < |data| ensures data[j].color != c {
        if j < n {
          assert prefix[j] == data[j];
        }
      }
      assert Placement(data)[c] == data[k];
    }
  }

  /** The line drawn for one entry. */
  function EntryLine(d: ShapeData): string {
    DrawLine(d.color, d.x, d.y, d.radius)
  }

  /** The lines the client prints for the entries, one per entry, in order. */
  function DrawnLines(data: seq<ShapeData>): (lines: seq<string>)
    ensures |lines| == |data|
  {
    if data == [] then [] else DrawnLines(data[..|data| - 1]) + [EntryLine(data[|data| - 1])]
  }

  /** One more entry adds one more line. */
  lemma DrawnLinesStep(data: seq<ShapeData>, i: nat)
    requires i < |data|
    ensures DrawnLines(data[..i + 1]) == DrawnLines(data[..i]) + [EntryLine(data[i])]
  {
    assert data[..i + 1][..i] == data[..i];
  }

  /** One more entry moves one colour's circle. */
  lemma PlacementStep(data: seq<ShapeData>, i: nat)
    requires i < |data|
    ensures Placement(data[..i + 1]) == Placement(data[..i])[data[i].color := data[i]]
  {
    assert data[..i + 1][..i] == data[..i];
  }

  /** The circle is at the entry's position with the entry's radius. */
  ghost predicate Holds(circle: Circle, d: ShapeData)
    reads circle
  {
    circle.x == d.x && circle.y == d.y && circle.radius == d.radius
  }

  /** A circle's colour, position and radius as an entry. */
  ghost function Position(circle: Circle): (d: ShapeData)
    reads circle
    ensures Holds(circle, d) && d.color == circle.color
  {
    ShapeData(circle.color, circle.x, circle.y, circle.radius)
  }

  /** Placing one more entry after a base placement is updating the combined placement. */
  lemma UpdateAfterUnion(base: map<string, ShapeData>, p: map<string, ShapeData>, d: ShapeData)
    ensures base + p[d.color := d] == (base + p)[d.color := d]
  {
  }

  /** The client of the shape factory. */
  class ShapeClient {
    const factory: ShapeFactory

    constructor (factory: ShapeFactory)
      ensures this.factory == factory
    {
      this.factory := factory;
    }

    /**
     * Starting from the lists `before`, the factory has cached exactly those colours
     * and the placed ones, kept every list it had, and each placed colour's circle
     * holds the entry placed for it.
     */
    ghost predicate Reflects(before: map<string, seq<Circle>>, placed: map<string, ShapeData>)
      reads factory, factory.Circles
    {
      factory.Valid()
      && factory.shapes.Keys == before.Keys + placed.Keys
      && (forall c :: c in before ==> factory.shapes[c] == before[c])
      && forall c :: c in placed ==> Holds(factory.shapes[c][0], placed[c])
    }

    /**
     * One pass of the client's loop: fetch the shared circle of the entry's colour,
     * move it to the entry's position and radius, and draw it.
     */
    method DrawOne(d: ShapeData, ghost before: map<string, seq<Circle>>, ghost placed: map<string, ShapeData>)
      returns (line: string)
      requires Reflects(before, placed)
      modifies factory, factory.Circles
      ensures Reflects(before, placed[d.color := d])
      ensures line == EntryLine(d)
      ensures forall c :: c in old(factory.shapes) && c != d.color ==>
                Position(factory.shapes[c][0]) == old(Position(factory.shapes[c][0]))
      ensures fresh(factory.Circles - old(factory.Circles))
    {
      var shape := factory.GetShape(d.color);
      assert factory.shapes.Keys == before.Keys + placed.Keys + {d.color};
      Place(shape, d, before, placed);
      forall c | c in old(factory.shapes) && c != d.color
        ensures Position(factory.shapes[c][0]) == old(Position(factory.shapes[c][0]))
      {
        var circle := factory.shapes[c][0];
        assert circle == old(factory.shapes)[c][0] && circle.color != shape.color;
      }
      line := shape.Draw();
    }

    /**
     * The three assignments of one loop pass: the entry's circle gets the entry's
     * position and radius. Circles of other colours are different objects, so they
     * keep the entries placed for them.
     */
    method Place(shape: Circle, d: ShapeData, ghost before: map<string, seq<Circle>>, ghost placed: map<string, ShapeData>)
      requires factory.Valid() && d.color in factory.shapes && factory.shapes[d.color] == [shape]
      requires factory.shapes.Keys == before.Keys + placed.Keys + {d.color}
      requires forall c :: c in before ==> factory.shapes[c] == before[c]
      requires forall c :: c in placed && c != d.color ==> Holds(factory.shapes[c][0], placed[c])
      modifies shape
      ensures Reflects(before, placed[d.color := d])
      ensures shape.x == d.x && shape.y == d.y && shape.radius == d.radius
    {
      shape.x, shape.y, shape.radius := d.x, d.y, d.radius;
      forall c | c in placed && c != d.color
        ensures Holds(factory.shapes[c][0], placed[c])
      {
        assert factory.shapes[c][0].color == c;
        assert old(Holds(factory.shapes[c][0], placed[c]));
      }
    }

    /** The entries the cached circles hold now: the starting point of the client's loop. */
    lemma Snapshot() returns (held: map<string, ShapeData>)
      requires factory.Valid()
      ensures Reflects(factory.shapes, held) && held.Keys == factory.shapes.Keys
      ensures forall c :: c in held ==> held[c] == Position(factory.shapes[c][0])
    {
      held := map c | c in factory.shapes :: Position(factory.shapes[c][0]);
    }

    /** What the loop's invariant says once every entry is drawn, split into the base and the entries. */
    lemma Settled(before: map<string, seq<Circle>>, held: map<string, ShapeData>, placement: map<string, ShapeData>)
      requires Reflects(before, held + placement) && held.Keys == before.Keys
      ensures factory.shapes.Keys == before.Keys + placement.Keys
      ensures forall c :: c in placement ==> Holds(factory.shapes[c][0], placement[c])
      ensures forall c :: c in held && c !in placement ==> Holds(factory.shapes[c][0], held[c])
    {
      assert (held + placement).Keys == held.Keys + placement.Keys;
      forall c | c in placement ensures Holds(factory.shapes[c][0], placement[c]) {
        assert (held + placement)[c] == placement[c];
      }
      forall c | c in held && c !in placement ensures Holds(factory.shapes[c][0], held[c]) {
        assert (held + placement)[c] == held[c];
      }
    }

    /**
     * Draws each entry in order with the shared circle of its colour, after moving
     * that circle to the entry's position and radius. Afterwards each colour's one
     * circle holds the last entry of that colour; lists of colours already cached
     * are not replaced, and the circles of cached colours that no entry has keep
     * their position and radius.
     */
    method DrawShapes(data: seq<ShapeData>) returns (lines: seq<string>)
      requires factory.Valid()
      modifies factory, factory.Circles
      ensures factory.Valid()
      ensures lines == DrawnLines(data)
      ensures factory.shapes.Keys == old(factory.shapes.Keys) + Placement(data).Keys
      ensures forall c :: c in Placement(data) ==> Holds(factory.shapes[c][0], Placement(data)[c])
      ensures forall c :: c in old(factory.shapes) ==> factory.shapes[c] == old(factory.shapes[c])
      ensures forall c :: c in old(factory.shapes) && c !in Placement(data) ==>
                Position(factory.shapes[c][0]) == old(Position(factory.shapes[c][0]))
    {
      lines := [];
      ghost var before, circles0 := factory.shapes, factory.Circles;
      ghost var held := Snapshot();
      assert held + Placement(data[..0]) == held;
      for i := 0 to |data|
        invariant Reflects(before, held + Placement(data[..i]))
        invariant lines == DrawnLines(data[..i])
        invariant fresh(factory.Circles - circles0)
      {
        DrawnLinesStep(data, i);
        PlacementStep(data, i);
        UpdateAfterUnion(held, Placement(data[..i]), data[i]);
        var line := DrawOne(data[i], before, held + Placement(data[..i]));
        lines := lines + [line];
      }
      assert data[..|data|] == data;
      Settled(before, held, Placement(data));
    }
  }

  /**
   * The demo input draws red, green and red again: the factory ends with two
   * circles, and the red one holds the second red entry.
   */
  method ShapeDemo() returns (factory: ShapeFactory, lines: seq<string>)
    ensures factory.Valid() && factory.shapes.Keys == {"red", "green"}
    ensures Holds(factory.shapes["red"][0], ShapeData("red", 30, 30, 15))
    ensures Holds(factory.shapes["green"][0], ShapeData("green", 20, 20, 10))
    ensures lines == [DrawLine("red", 10, 10, 5), DrawLine("green", 20, 20, 10), DrawLine("red", 30, 30, 15)]
  {
    factory := new ShapeFactory();
    var client := new ShapeClient(factory);
    var data := [ShapeData("red", 10, 10, 5), ShapeData("green", 20, 20, 10), ShapeData("red", 30, 30, 15)];
    lines := client.DrawShapes(data);
    assert data[..2][..1] == data[..1] && data[..3] == data;
    assert Placement(data[..1]) == map["red" := data[0]];
    assert Placement(data[..2]) == map["red" := data[0], "green" := data[1]];
    assert Placement(data) == map["red" := data[2], "green" := data[1]];
  }

  /** The demo's first line as printed text: the format of `Circle.draw`. */
  lemma FirstDemoLine()
    ensures DrawLine("red", 10, 10, 5) == "Drawing a circle with color red at (10, 10) with radius 5"
  {
    var text := "Drawing a circle with color red at (10, 10) with radius 5";
    assert NatToString(1) == "1";
    assert IntToString(10) == "10" && IntToString(5) == "5";
    var line := DrawLine("red", 10, 10, 5);
    assert |line| == |text|;
    forall k | 0 <= k < |line| ensures line[k] == text[k] {
    }
  }
}
