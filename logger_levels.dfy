/** The logger's level table: six names mapped to numbers, -Infinity to Infinity. */
module LoggerLevels {
  import opened Wrappers
  import opened Strings
  import opened JsValues

  datatype Level = ALL | DEBUG | INFO | WARN | ERROR | NONE

  /** `levels[l]`. */
  function Value(l: Level): Numeric {
    match l
    case ALL => NegInf
    case DEBUG => Fin(0)
    case INFO => Fin(1)
    case WARN => Fin(2)
    case ERROR => Fin(3)
    case NONE => PosInf
  }

  function Name(l: Level): string {
    match l
    case ALL => "ALL"
    case DEBUG => "DEBUG"
    case INFO => "INFO"
    case WARN => "WARN"
    case ERROR => "ERROR"
    case NONE => "NONE"
  }

  /** The level a string names, if any (the table's own keys only). */
  function Parse(name: string): (r: Option<Level>)
    ensures r.Some? ==> Name(r.value) == name
    ensures forall l :: Name(l) == name ==> r == Some(l)
  {
    if name == "ALL" then Some(ALL)
    else if name == "DEBUG" then Some(DEBUG)
    else if name == "INFO" then Some(INFO)
    else if name == "WARN" then Some(WARN)
    else if name == "ERROR" then Some(ERROR)
    else if name == "NONE" then Some(NONE)
    else None
  }

  /** `levels[name]` for any string: undefined (None) for a name not in the table. */
  function ValueOf(name: string): (r: Option<Numeric>)
    ensures r.Some? <==> Parse(name).Some?
    ensures r.Some? ==> r.value == Value(Parse(name).value)
  {
    match Parse(name)
    case Some(l) => Some(Value(l))
    case None => None
  }

  /** The position of a level in the table. */
  function Rank(l: Level): (r: nat)
    ensures r < 6
  {
    match l
    case ALL => 0
    case DEBUG => 1
    case INFO => 2
    case WARN => 3
    case ERROR => 4
    case NONE => 5
  }

  /** The table's keys, in the table's order. */
  const LevelNames: seq<string> := ["ALL", "DEBUG", "INFO", "WARN", "ERROR", "NONE"]

  /** Exactly six names: the table's keys, each naming the level of its rank. */
  lemma SixLevels()
    ensures |LevelNames| == 6
    ensures forall name :: Parse(name).Some? <==> name in LevelNames
    ensures forall i :: 0 <= i < |LevelNames| ==> Parse(LevelNames[i]).Some? && Rank(Parse(LevelNames[i]).value) == i
    ensures forall l :: Name(l) == LevelNames[Rank(l)]
  {
  }

  /** A level's name is NaN as a number. */
  lemma NameIsNaN(l: Level)
    ensures StringToNumber(Name(l)) == None
  {
    var name := Name(l);
    assert name[|name| - 1] in "LGOFRNE";
    TrimEndNoop(name);
    NonNumericText(name);
  }

  /** Values strictly increase along the table: ALL < DEBUG < INFO < WARN < ERROR < NONE. */
  lemma StrictlyIncreasing(a: Level, b: Level)
    ensures Rank(a) < Rank(b) <==> NumLt(Value(a), Value(b))
    ensures Rank(a) <= Rank(b) <==> NumLe(Value(a), Value(b))
  {
  }

  /** ALL is below, and NONE above, every other level; the middle four are 0 to 3. */
  lemma Extremes(l: Level)
    ensures l != ALL ==> NumLt(Value(ALL), Value(l))
    ensures l != NONE ==> NumLt(Value(l), Value(NONE))
    ensures l != ALL && l != NONE ==> Value(l) == Fin(Rank(l) - 1)
  {
  }
}
