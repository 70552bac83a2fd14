/**
 * Render types: immutable descriptors of one SGR (Select Graphic Rendition,
 * section 8.3.117 of ECMA-48) parameter set.
 *
 * Each descriptor carries an ordered list of integer arguments whose shape is
 * fixed by its variant. The variant itself is what a register's dispatch
 * table is keyed on, so it is exposed as a separate tag, `Kind`.
 */
module RenderTypes {

  datatype Option<T> = None | Some(value: T)

  /** The variant tag a register's dispatch table is keyed on. */
  datatype Kind = BaseKind | SgrKind | SgrArgsKind | EightbitKind | RgbKind

  /**
   * One render type. `Base` is the bare base class, whose argument list is
   * empty. The constructors check no ranges: any integer is stored as given.
   */
  datatype RenderType =
    | Base
    | Sgr(num: int)
    | SgrArgs(num: int, extra: seq<int>)
    | Eightbit(index: int)
    | Rgb(r: int, g: int, b: int)
  {
    /** The variant tag of this descriptor. */
    function Kind(): (k: Kind)
      ensures k == BaseKind <==> this.Base?
      ensures k == SgrKind <==> this.Sgr?
      ensures k == SgrArgsKind <==> this.SgrArgs?
      ensures k == EightbitKind <==> this.Eightbit?
      ensures k == RgbKind <==> this.Rgb?
    {
      match this
      case Base => BaseKind
      case Sgr(_) => SgrKind
      case SgrArgs(_, _) => SgrArgsKind
      case Eightbit(_) => EightbitKind
      case Rgb(_, _, _) => RgbKind
    }

    /** The ordered argument list; its shape is the one fixed for the variant. */
    function Args(): (args: seq<int>)
      ensures WellShaped(Kind(), args)
    {
      match this
      case Base => []
      case Sgr(num) => [num]
      case SgrArgs(num, extra) => [num] + extra
      case Eightbit(index) => [index]
      case Rgb(r, g, b) => [r, g, b]
    }
  }

  /** The argument-list shape each variant produces. */
  predicate WellShaped(k: Kind, args: seq<int>)
  {
    match k
    case BaseKind => |args| == 0
    case SgrKind => |args| == 1
    case SgrArgsKind => |args| >= 1
    case EightbitKind => |args| == 1
    case RgbKind => |args| == 3
  }

  /**
   * Rebuilds a descriptor from its variant tag and argument list: the inverse
   * of `Kind()` and `Args()` taken together.
   */
  function FromArgs(k: Kind, args: seq<int>): (r: Option<RenderType>)
    ensures r.Some? <==> WellShaped(k, args)
    ensures r.Some? ==> r.value.Kind() == k
    ensures r.Some? ==> r.value.Args() == args
  {
    if !WellShaped(k, args) then None
    else
      match k
      case BaseKind => Some(Base)
      case SgrKind => Some(Sgr(args[0]))
      case SgrArgsKind =>
        assert args == [args[0]] + args[1..];
        Some(SgrArgs(args[0], args[1..]))
      case EightbitKind => Some(Eightbit(args[0]))
      case RgbKind => Some(Rgb(args[0], args[1], args[2]))
  }

  /** Backward-compatible names: the same variants under other names. */
  function EightbitFg(num: int): (t: RenderType)
    ensures t.Kind() == EightbitKind && t.Args() == [num]
  {
    Eightbit(num)
  }

  function EightbitBg(num: int): (t: RenderType)
    ensures t.Kind() == EightbitKind && t.Args() == [num]
  {
    Eightbit(num)
  }

  function RgbFg(r: int, g: int, b: int): (t: RenderType)
    ensures t.Kind() == RgbKind && t.Args() == [r, g, b]
  {
    Rgb(r, g, b)
  }

  function RgbBg(r: int, g: int, b: int): (t: RenderType)
    ensures t.Kind() == RgbKind && t.Args() == [r, g, b]
  {
    Rgb(r, g, b)
  }

  /** Rebuilding a descriptor from its tag and arguments gives it back. */
  lemma ArgsRoundTrip(t: RenderType)
    ensures FromArgs(t.Kind(), t.Args()) == Some(t)
  {
  }

  /** The variant tag and the argument list together identify a descriptor. */
  lemma {:induction false} KindAndArgsDetermine(t: RenderType, u: RenderType)
    requires t.Kind() == u.Kind() && t.Args() == u.Args()
    ensures t == u
  {
    ArgsRoundTrip(t);
    ArgsRoundTrip(u);
  }

  /** The argument lists each constructor stores, for every integer input. */
  lemma ConstructorArgs(num: int, extra: seq<int>, r: int, g: int, b: int)
    ensures Base.Args() == []
    ensures Sgr(num).Args() == [num]
    ensures SgrArgs(num, extra).Args()[0] == num
    ensures SgrArgs(num, extra).Args()[1..] == extra
    ensures |SgrArgs(num, extra).Args()| == 1 + |extra|
    ensures SgrArgs(num, []).Args() == Sgr(num).Args()
    ensures Eightbit(num).Args() == [num]
    ensures Rgb(r, g, b).Args() == [r, g, b]
  {
  }

  /** `Eightbit(n)` has the payload of `Sgr(n)` but is a different variant. */
  lemma EightbitLooksLikeSgr(n: int)
    ensures Eightbit(n).Args() == Sgr(n).Args()
    ensures Eightbit(n).Kind() != Sgr(n).Kind()
    ensures Eightbit(n) != Sgr(n)
  {
  }

  /**
   * The backward-compatible names build identical values, so no table keyed
   * on the variant can tell the foreground name from the background one.
   */
  lemma AliasesIndistinguishable<F>(table: map<Kind, F>, n: int, r: int, g: int, b: int)
    ensures EightbitFg(n) == EightbitBg(n) == Eightbit(n)
    ensures RgbFg(r, g, b) == RgbBg(r, g, b) == Rgb(r, g, b)
    ensures EightbitFg(n).Kind() in table <==> EightbitBg(n).Kind() in table
    ensures EightbitFg(n).Kind() in table ==> table[EightbitFg(n).Kind()] == table[EightbitBg(n).Kind()]
    ensures RgbFg(r, g, b).Kind() in table ==> table[RgbFg(r, g, b).Kind()] == table[RgbBg(r, g, b).Kind()]
  {
  }
}
