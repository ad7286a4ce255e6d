/** The simulation grid of the main window: `city` maps a cell key "x,y" to
    the labels shown in that cell, and `previousPosition` maps a label to the
    cell it was last placed in. Every change runs on the Swing event thread,
    one after another, so each operation is a sequential state change. */
module CityGrid {
  import opened Java
  import opened JavaString

  /** The side of the square grid. */
  const DIMENSION: int := 20

  type City = map<string, seq<string>>

  datatype Grid = Grid(city: City, previousPosition: map<string, string>)

  /** The cell key `x + "," + y`. */
  function Position(x: int32, y: int32): string
  {
    IntToString(x) + "," + IntToString(y)
  }

  /** The labels of a cell, none for a cell that is not in the map. */
  function CellOf(city: City, pos: string): seq<string>
  {
    if pos in city then city[pos] else []
  }

  /** No cell in the map holds an empty list: an emptied cell is removed. */
  predicate NoEmptyCells(city: City)
  {
    forall pos | pos in city :: |city[pos]| > 0
  }

  /** `List.remove(Object)`: the first occurrence of `v` dropped. */
  function RemoveFirst(l: seq<string>, v: string): (r: seq<string>)
    ensures v !in l ==> r == l
    ensures v in l ==> |r| == |l| - 1 && multiset(r) == multiset(l) - multiset{v}
    decreases |l|
  {
    if |l| == 0 then l
    else if l[0] == v then
      assert l == [l[0]] + l[1..];
      l[1..]
    else
      assert l == [l[0]] + l[1..];
      [l[0]] + RemoveFirst(l[1..], v)
  }

  /** Removing an entry that was just appended, and found nowhere before it,
      gives back the list as it was. */
  lemma {:induction false} RemoveFirstOfAppended(l: seq<string>, v: string)
    requires v !in l
    ensures RemoveFirst(l + [v], v) == l
    decreases |l|
  {
    if |l| > 0 {
      assert (l + [v])[1..] == l[1..] + [v];
      RemoveFirstOfAppended(l[1..], v);
      assert l == [l[0]] + l[1..];
    }
  }

  /** `city.computeIfAbsent(pos, k -> new ArrayList<>()).add(entry)`. */
  function Appended(city: City, pos: string, entry: string): (r: City)
    ensures CellOf(r, pos) == CellOf(city, pos) + [entry]
  {
    city[pos := CellOf(city, pos) + [entry]]
  }

  /** One occurrence of `entry` removed from the cell `pos`, the cell dropped if
      that leaves it empty, and nothing done for a cell that is not there. */
  function Detached(city: City, pos: string, entry: string): (r: City)
    ensures CellOf(r, pos) == RemoveFirst(CellOf(city, pos), entry)
    ensures pos in r ==> |r[pos]| > 0
  {
    if pos !in city then city
    else
      var rest := RemoveFirst(city[pos], entry);
      if |rest| == 0 then city - {pos} else city[pos := rest]
  }

  /** Adding to or removing from one cell leaves every other cell as it was. */
  lemma ChangesStayInTheirCell(city: City, pos: string, entry: string, other: string)
    requires other != pos
    ensures other in Appended(city, pos, entry) <==> other in city
    ensures CellOf(Appended(city, pos, entry), other) == CellOf(city, other)
    ensures other in Detached(city, pos, entry) <==> other in city
    ensures CellOf(Detached(city, pos, entry), other) == CellOf(city, other)
  {
  }

  /** Neither adding nor removing leaves an empty cell in the map. */
  lemma ChangesKeepNoEmptyCells(city: City, pos: string, entry: string)
    requires NoEmptyCells(city)
    ensures NoEmptyCells(Appended(city, pos, entry))
    ensures NoEmptyCells(Detached(city, pos, entry))
  {
    var a := Appended(city, pos, entry);
    forall p | p in a ensures |a[p]| > 0 {
      if p != pos {
        ChangesStayInTheirCell(city, pos, entry, p);
      }
    }
    var d := Detached(city, pos, entry);
    forall p | p in d ensures |d[p]| > 0 {
      if p != pos {
        ChangesStayInTheirCell(city, pos, entry, p);
      }
    }
  }

  /** The label that the previous step of the same vehicle placed: `info` split
      on "-", the battery part read as an `int` and raised by one. `None` when
      there is no second part or it is not a number; in the source either
      exception escapes the update, which then changes nothing. */
  function OldLabel(info: string): Option<string>
  {
    var parts := Split(info, '-');
    if |parts| < 2 then None
    else
      match ParseInt(parts[1])
      case None => None
      case Some(level) => Some(parts[0] + "-" + IntToString(Wrap(level as int + 1)))
  }

  /** `updateMatrix(x, y, info)`: the label the same vehicle placed one step
      earlier is taken off its cell (a cell missing from `city` is passed
      over), then `info` is added at "x,y" and remembered as being there. */
  function Updated(g: Grid, x: int32, y: int32, info: string): Grid
  {
    match OldLabel(info)
    case None => g
    case Some(oldInfo) =>
      var city := if oldInfo in g.previousPosition then Detached(g.city, g.previousPosition[oldInfo], oldInfo) else g.city;
      var newPosition := Position(x, y);
      Grid(Appended(city, newPosition, info), g.previousPosition[info := newPosition])
  }

  /** `clearMatrix()`: every cell emptied, the remembered positions kept. */
  function Cleared(g: Grid): Grid
  {
    Grid(map[], g.previousPosition)
  }

  /** `showContentAt(x, y, content)`: `content` added at "x,y". */
  function WithContent(g: Grid, x: int32, y: int32, content: string): Grid
  {
    Grid(Appended(g.city, Position(x, y), content), g.previousPosition)
  }

  /** The timer `showContentAt` starts: `content` taken off "x,y" again. */
  function Expired(g: Grid, x: int32, y: int32, content: string): Grid
  {
    Grid(Detached(g.city, Position(x, y), content), g.previousPosition)
  }

  // ---------------------------------------------------------------------
  // Properties of the grid operations
  // ---------------------------------------------------------------------

  lemma IntToStringHasNoComma(n: int32)
    ensures ',' !in IntToString(n)
  {
    if n < 0 {
      NatToStringDigitsOnly(-(n as int), ',');
    } else {
      NatToStringDigitsOnly(n, ',');
    }
  }

  /** Different coordinates give different cell keys. */
  lemma PositionInjective(x1: int32, y1: int32, x2: int32, y2: int32)
    requires Position(x1, y1) == Position(x2, y2)
    ensures x1 == x2 && y1 == y2
  {
    IntToStringHasNoComma(x1);
    IntToStringHasNoComma(y1);
    IntToStringHasNoComma(x2);
    IntToStringHasNoComma(y2);
    SplitTwo(IntToString(x1), ',', IntToString(y1));
    SplitTwo(IntToString(x2), ',', IntToString(y2));
    IntToStringInjective(x1, x2);
    IntToStringInjective(y1, y2);
  }

  /** A label written as vehicle id, "-" and battery level names, as its
      predecessor, the same id with the level one higher. */
  lemma OldLabelOfStep(id: string, level: int32)
    requires '-' !in id && 0 <= level < INT_MAX
    ensures OldLabel(id + "-" + IntToString(level)) == Some(id + "-" + IntToString(level + 1))
  {
    NatToStringDigitsOnly(level, '-');
    SplitTwo(id, '-', IntToString(level));
    ParseIntRoundTrip(level);
  }

  /** A label that cannot be read leaves the grid as it is. */
  lemma UpdateOfUnreadableLabel(g: Grid, x: int32, y: int32, info: string)
    requires OldLabel(info).None?
    ensures Updated(g, x, y, info) == g
  {
  }

  /** After a readable update, `info` is the newest label at "x,y", it is
      remembered there, and every other remembered position is kept. */
  lemma UpdatePlacesLabel(g: Grid, x: int32, y: int32, info: string)
    requires OldLabel(info).Some?
    ensures var g' := Updated(g, x, y, info);
      var cell := CellOf(g'.city, Position(x, y));
      |cell| > 0 && cell[|cell| - 1] == info &&
      g'.previousPosition == g.previousPosition[info := Position(x, y)]
  {
  }

  /** The old label is taken off exactly once from the cell it was remembered
      in, when that cell is still present and is not the new cell; a cell
      missing from `city` only loses the removal, never the insertion. */
  lemma UpdateRemovesOldLabel(g: Grid, x: int32, y: int32, info: string)
    requires OldLabel(info).Some? && OldLabel(info).value in g.previousPosition
    requires g.previousPosition[OldLabel(info).value] != Position(x, y)
    ensures var oldInfo := OldLabel(info).value;
      var oldPos := g.previousPosition[oldInfo];
      CellOf(Updated(g, x, y, info).city, oldPos) == RemoveFirst(CellOf(g.city, oldPos), oldInfo)
  {
  }

  /** Cells other than the old and the new one are not touched. */
  lemma UpdateLeavesOtherCells(g: Grid, x: int32, y: int32, info: string, pos: string)
    requires pos != Position(x, y)
    requires OldLabel(info).Some? && OldLabel(info).value in g.previousPosition ==>
             pos != g.previousPosition[OldLabel(info).value]
    ensures CellOf(Updated(g, x, y, info).city, pos) == CellOf(g.city, pos)
    ensures pos in Updated(g, x, y, info).city <==> pos in g.city
  {
    if OldLabel(info).Some? {
      var oldInfo := OldLabel(info).value;
      if oldInfo in g.previousPosition {
        var city := Detached(g.city, g.previousPosition[oldInfo], oldInfo);
        ChangesStayInTheirCell(g.city, g.previousPosition[oldInfo], oldInfo, pos);
        ChangesStayInTheirCell(city, Position(x, y), info, pos);
      } else {
        ChangesStayInTheirCell(g.city, Position(x, y), info, pos);
      }
    }
  }

  /** No grid operation leaves an empty cell behind. */
  lemma OperationsKeepNoEmptyCells(g: Grid, x: int32, y: int32, s: string)
    requires NoEmptyCells(g.city)
    ensures NoEmptyCells(Updated(g, x, y, s).city)
    ensures NoEmptyCells(Cleared(g).city)
    ensures NoEmptyCells(WithContent(g, x, y, s).city)
    ensures NoEmptyCells(Expired(g, x, y, s).city)
  {
    ChangesKeepNoEmptyCells(g.city, Position(x, y), s);
    if OldLabel(s).Some? && OldLabel(s).value in g.previousPosition {
      var oldInfo := OldLabel(s).value;
      var oldPos := g.previousPosition[oldInfo];
      ChangesKeepNoEmptyCells(g.city, oldPos, oldInfo);
      ChangesKeepNoEmptyCells(Detached(g.city, oldPos, oldInfo), Position(x, y), s);
    }
  }

  /** A marker shown on a grid without empty cells, in a cell that does not
      hold it yet, disappears without trace when its timer fires. */
  lemma ExpiryUndoesShow(g: Grid, x: int32, y: int32, content: string)
    requires NoEmptyCells(g.city)
    requires content !in CellOf(g.city, Position(x, y))
    ensures Expired(WithContent(g, x, y, content), x, y, content) == g
  {
    DetachedAfterAppended(g.city, Position(x, y), content);
  }

  /** Taking off a cell the entry just appended to it, when the entry was not
      there before, gives back the city. */
  lemma DetachedAfterAppended(city: City, pos: string, entry: string)
    requires NoEmptyCells(city)
    requires entry !in CellOf(city, pos)
    ensures Detached(Appended(city, pos, entry), pos, entry) == city
  {
    var cell := CellOf(city, pos);
    RemoveFirstOfAppended(cell, entry);
    if pos in city {
      RestoredCell(city, pos, cell + [entry]);
    } else {
      RemovedNewCell(city, pos, [entry]);
    }
  }

  /** Putting a cell's old labels back undoes a change to it. */
  lemma RestoredCell(city: City, pos: string, changed: seq<string>)
    requires pos in city
    ensures city[pos := changed][pos := city[pos]] == city
  {
  }

  /** Removing a cell that was added undoes the addition. */
  lemma RemovedNewCell(city: City, pos: string, added: seq<string>)
    requires pos !in city
    ensures city[pos := added] - {pos} == city
  {
  }

  /** An expiry that finds its cell gone, as after `clearMatrix`, does nothing. */
  lemma ExpiryAfterClear(g: Grid, x: int32, y: int32, content: string)
    ensures Expired(Cleared(g), x, y, content) == Cleared(g)
  {
  }

  /** The main window's grid state. */
  class MainFrame {
    var city: City
    var previousPosition: map<string, string>

    constructor()
      ensures city == map[] && previousPosition == map[]
    {
      city := map[];
      previousPosition := map[];
    }

    function Snapshot(): Grid
      reads this
    {
      Grid(city, previousPosition)
    }

    method UpdateMatrix(x: int32, y: int32, info: string)
      modifies this
      ensures Snapshot() == Updated(old(Snapshot()), x, y, info)
    {
      var newPosition := Position(x, y);
      var parts := Split(info, '-');
      if |parts| < 2 {
        assert OldLabel(info).None?;
        return;
      }
      var parsed := ParseInt(parts[1]);
      if parsed.None? {
        assert OldLabel(info).None?;
        return;
      }
      var oldInfo := parts[0] + "-" + IntToString(Wrap(parsed.value as int + 1));
      assert OldLabel(info) == Some(oldInfo);
      ghost var detached := if oldInfo in previousPosition then Detached(city, previousPosition[oldInfo], oldInfo) else city;
      if oldInfo in previousPosition {
        var oldPosition := previousPosition[oldInfo];
        if oldPosition in city {
          var rest := RemoveFirst(city[oldPosition], oldInfo);
          if |rest| == 0 {
            city := city - {oldPosition};
          } else {
            city := city[oldPosition := rest];
          }
        }
      }
      assert city == detached;
      city := city[newPosition := CellOf(city, newPosition) + [info]];
      previousPosition := previousPosition[info := newPosition];
    }

    method ClearMatrix()
      modifies this`city
      ensures Snapshot() == Cleared(old(Snapshot()))
    {
      city := map[];
    }

    method ShowContentAt(x: int32, y: int32, content: string)
      modifies this`city
      ensures Snapshot() == WithContent(old(Snapshot()), x, y, content)
    {
      var position := Position(x, y);
      city := city[position := CellOf(city, position) + [content]];
    }

    /** What the timer started by `ShowContentAt` does when it fires. */
    method ExpireContent(x: int32, y: int32, content: string)
      modifies this`city
      ensures Snapshot() == Expired(old(Snapshot()), x, y, content)
    {
      var position := Position(x, y);
      if position in city {
        var rest := RemoveFirst(city[position], content);
        if |rest| == 0 {
          city := city - {position};
        } else {
          city := city[position := rest];
        }
      }
    }
  }
}
