/**
 * Registers: named collections of styles, each owning a dispatch table from
 * render-type variant to the formatter that renders it, plus two flags for
 * the dynamic 8-bit and RGB constructors. The five preset registers are the
 * named constructors of `Register`; each builds its state one entry at a time.
 */
module Registers {
  import opened RenderTypes

  /** A style is the ordered sequence of render types it renders. */
  type Style = seq<RenderType>

  /**
   * Names of the escape-sequence formatters a dispatch table can point to.
   * Their output is not part of this model; only which one is chosen is.
   */
  datatype RenderFunc =
    | SgrFunc
    | SgrArgsFunc
    | EightbitFgFunc
    | EightbitBgFunc
    | EightbitUnderlineFunc
    | RgbFgFunc
    | RgbBgFunc
    | RgbUnderlineFunc

  /** Every render type in `s` is of a kind in `kinds`. */
  predicate Dispatchable(kinds: set<Kind>, s: Style)
  {
    forall i :: 0 <= i < |s| ==> s[i].Kind() in kinds
  }

  /** Every named style in `styles` is dispatchable by `kinds`. */
  predicate AllDispatchable(kinds: set<Kind>, styles: map<string, Style>)
  {
    forall name :: name in styles ==> Dispatchable(kinds, styles[name])
  }

  class Register {
    /** The dispatch table, keyed by render-type variant. */
    var renderfuncs: map<Kind, RenderFunc>
    /** Whether the dynamic 8-bit constructor is bound. */
    var eightbitCall: bool
    /** Whether the dynamic RGB constructor is bound. */
    var rgbCall: bool
    /** The named styles. */
    var styles: map<string, Style>

    /** Every named style can be rendered with this register's table. */
    predicate Valid()
      reads this
    {
      AllDispatchable(renderfuncs.Keys, styles)
    }

    /**
     * Registers `f` as the formatter for variant `k`, replacing any earlier one.
     * The table only grows, so `Valid()` is kept (`MoreKindsKeepDispatchable`).
     */
    method SetRenderFunc(k: Kind, f: RenderFunc)
      modifies this
      ensures renderfuncs == old(renderfuncs)[k := f]
      ensures styles == old(styles)
      ensures eightbitCall == old(eightbitCall) && rgbCall == old(rgbCall)
    {
      renderfuncs := renderfuncs[k := f];
    }

    /** Binds the dynamic 8-bit constructor. */
    method SetEightbitCall()
      modifies this
      ensures eightbitCall
      ensures renderfuncs == old(renderfuncs) && styles == old(styles) && rgbCall == old(rgbCall)
    {
      eightbitCall := true;
    }

    /** Binds the dynamic RGB constructor. */
    method SetRgbCall()
      modifies this
      ensures rgbCall
      ensures renderfuncs == old(renderfuncs) && styles == old(styles) && eightbitCall == old(eightbitCall)
    {
      rgbCall := true;
    }

    /**
     * Binds `name` to `s`, replacing any earlier binding. `Valid()` is kept when
     * `s` is dispatchable by the table (`BindingKeepsDispatchable`).
     */
    method SetStyle(name: string, s: Style)
      modifies this
      ensures styles == old(styles)[name := s]
      ensures renderfuncs == old(renderfuncs)
      ensures eightbitCall == old(eightbitCall) && rgbCall == old(rgbCall)
    {
      styles := styles[name := s];
    }

    /** The effect register. */
    constructor Ef()
      ensures renderfuncs == EfRenderFuncs()
      ensures !eightbitCall && !rgbCall
      ensures styles == EfStyles()
      ensures Valid()
    {
      renderfuncs, eightbitCall, rgbCall, styles := map[], false, false, map[];
      new;
      SetRenderFunc(SgrKind, SgrFunc);

      SetStyle("b", [Sgr(1)]);
      SetStyle("bold", [Sgr(1)]);
      SetStyle("dim", [Sgr(2)]);
      SetStyle("i", [Sgr(3)]);
      SetStyle("italic", [Sgr(3)]);
      SetStyle("u", [Sgr(4)]);
      SetStyle("underl", [Sgr(4)]);
      SetStyle("blink", [Sgr(5)]);
      SetStyle("inverse", [Sgr(7)]);
      SetStyle("hidden", [Sgr(8)]);
      SetStyle("strike", [Sgr(9)]);

      SetStyle("rs", [Sgr(22), Sgr(23), Sgr(24), Sgr(25), Sgr(27), Sgr(28), Sgr(29)]);

      EfDispatch();
    }

    /** The foreground register. */
    constructor Fg()
      ensures renderfuncs == FgRenderFuncs()
      ensures eightbitCall && rgbCall
      ensures styles == FgStyles()
      ensures Valid()
    {
      renderfuncs, eightbitCall, rgbCall, styles := map[], false, false, map[];
      new;
      SetRenderFunc(SgrKind, SgrFunc);
      SetRenderFunc(EightbitKind, EightbitFgFunc);
      SetRenderFunc(RgbKind, RgbFgFunc);

      SetEightbitCall();
      SetRgbCall();

      SetStyle("black", [Sgr(30)]);
      SetStyle("red", [Sgr(31)]);
      SetStyle("green", [Sgr(32)]);
      SetStyle("yellow", [Sgr(33)]);
      SetStyle("blue", [Sgr(34)]);
      SetStyle("magenta", [Sgr(35)]);
      SetStyle("cyan", [Sgr(36)]);
      SetStyle("li_grey", [Sgr(37)]);

      SetStyle("rs", [Sgr(39)]);

      SetStyle("da_grey", [Sgr(90)]);
      SetStyle("li_red", [Sgr(91)]);
      SetStyle("li_green", [Sgr(92)]);
      SetStyle("li_yellow", [Sgr(93)]);
      SetStyle("li_blue", [Sgr(94)]);
      SetStyle("li_magenta", [Sgr(95)]);
      SetStyle("li_cyan", [Sgr(96)]);
      SetStyle("white", [Sgr(97)]);

      SetStyle("da_black", [Eightbit(0)]);
      SetStyle("da_red", [Eightbit(88)]);
      SetStyle("da_green", [Eightbit(22)]);
      SetStyle("da_yellow", [Eightbit(58)]);
      SetStyle("da_blue", [Eightbit(18)]);
      SetStyle("da_magenta", [Eightbit(89)]);
      SetStyle("da_cyan", [Eightbit(23)]);
      SetStyle("grey", [Eightbit(249)]);

      FgDispatch();
    }

    /** The background register. */
    constructor Bg()
      ensures renderfuncs == BgRenderFuncs()
      ensures eightbitCall && rgbCall
      ensures styles == BgStyles()
      ensures Valid()
    {
      renderfuncs, eightbitCall, rgbCall, styles := map[], false, false, map[];
      new;
      SetRenderFunc(SgrKind, SgrFunc);
      SetRenderFunc(EightbitKind, EightbitBgFunc);
      SetRenderFunc(RgbKind, RgbBgFunc);

      SetEightbitCall();
      SetRgbCall();

      SetStyle("black", [Sgr(40)]);
      SetStyle("red", [Sgr(41)]);
      SetStyle("green", [Sgr(42)]);
      SetStyle("yellow", [Sgr(43)]);
      SetStyle("blue", [Sgr(44)]);
      SetStyle("magenta", [Sgr(45)]);
      SetStyle("cyan", [Sgr(46)]);
      SetStyle("li_grey", [Sgr(47)]);

      SetStyle("rs", [Sgr(49)]);

      SetStyle("da_grey", [Sgr(100)]);
      SetStyle("li_red", [Sgr(101)]);
      SetStyle("li_green", [Sgr(102)]);
      SetStyle("li_yellow", [Sgr(103)]);
      SetStyle("li_blue", [Sgr(104)]);
      SetStyle("li_magenta", [Sgr(105)]);
      SetStyle("li_cyan", [Sgr(106)]);
      SetStyle("white", [Sgr(107)]);

      SetStyle("da_black", [Eightbit(0)]);
      SetStyle("da_red", [Eightbit(88)]);
      SetStyle("da_green", [Eightbit(22)]);
      SetStyle("da_yellow", [Eightbit(58)]);
      SetStyle("da_blue", [Eightbit(18)]);
      SetStyle("da_magenta", [Eightbit(89)]);
      SetStyle("da_cyan", [Eightbit(23)]);
      SetStyle("grey", [Eightbit(249)]);

      BgDispatch();
    }

    /** The underline register. */
    constructor Underline()
      ensures renderfuncs == UnderlineRenderFuncs()
      ensures eightbitCall && rgbCall
      ensures styles == UnderlineStyles()
      ensures Valid()
    {
      renderfuncs, eightbitCall, rgbCall, styles := map[], false, false, map[];
      new;
      SetRenderFunc(SgrKind, SgrFunc);
      SetRenderFunc(SgrArgsKind, SgrArgsFunc);
      SetRenderFunc(EightbitKind, EightbitUnderlineFunc);
      SetRenderFunc(RgbKind, RgbUnderlineFunc);

      SetEightbitCall();
      SetRgbCall();

      SetStyle("on", [Sgr(4)]);
      SetStyle("off", [Sgr(24)]);
      SetStyle("line", [Sgr(4)]);
      SetStyle("double", [SgrArgs(4, [2])]);
      SetStyle("curly", [SgrArgs(4, [3])]);
      SetStyle("dotted", [SgrArgs(4, [4])]);
      SetStyle("dashed", [SgrArgs(4, [5])]);

      SetStyle("black", [Eightbit(0)]);
      SetStyle("red", [Eightbit(1)]);
      SetStyle("green", [Eightbit(2)]);
      SetStyle("yellow", [Eightbit(3)]);
      SetStyle("blue", [Eightbit(4)]);
      SetStyle("magenta", [Eightbit(5)]);
      SetStyle("cyan", [Eightbit(6)]);
      SetStyle("li_grey", [Eightbit(7)]);

      SetStyle("rs", [Sgr(59), Sgr(24)]);
      SetStyle("default", [Sgr(59)]);

      SetStyle("da_grey", [Eightbit(8)]);
      SetStyle("li_red", [Eightbit(9)]);
      SetStyle("li_green", [Eightbit(10)]);
      SetStyle("li_yellow", [Eightbit(11)]);
      SetStyle("li_blue", [Eightbit(12)]);
      SetStyle("li_magenta", [Eightbit(13)]);
      SetStyle("li_cyan", [Eightbit(14)]);
      SetStyle("white", [Eightbit(15)]);

      SetStyle("da_black", [Eightbit(0)]);
      SetStyle("da_red", [Eightbit(88)]);
      SetStyle("da_green", [Eightbit(22)]);
      SetStyle("da_yellow", [Eightbit(58)]);
      SetStyle("da_blue", [Eightbit(18)]);
      SetStyle("da_magenta", [Eightbit(89)]);
      SetStyle("da_cyan", [Eightbit(23)]);
      SetStyle("grey", [Eightbit(249)]);

      UnderlineDispatch();
    }

    /** The reset register. */
    constructor Rs()
      ensures renderfuncs == RsRenderFuncs()
      ensures !eightbitCall && !rgbCall
      ensures styles == RsStyles()
      ensures Valid()
    {
      renderfuncs, eightbitCall, rgbCall, styles := map[], false, false, map[];
      new;
      SetRenderFunc(SgrKind, SgrFunc);

      SetStyle("all", [Sgr(0)]);
      SetStyle("fg", [Sgr(39)]);
      SetStyle("bg", [Sgr(49)]);
      SetStyle("ef", [Sgr(22), Sgr(23), Sgr(24), Sgr(25), Sgr(27), Sgr(28), Sgr(29)]);

      SetStyle("bold_dim", [Sgr(22)]);
      SetStyle("dim_bold", [Sgr(22)]);
      SetStyle("i", [Sgr(23)]);
      SetStyle("italic", [Sgr(23)]);
      SetStyle("u", [Sgr(24)]);
      SetStyle("underl", [Sgr(24)]);
      SetStyle("blink", [Sgr(25)]);
      SetStyle("inverse", [Sgr(27)]);
      SetStyle("hidden", [Sgr(28)]);
      SetStyle("strike", [Sgr(29)]);

      RsDispatch();
    }
  }

  /** The module-level default registers. */
  method DefaultRegisters() returns (ef: Register, fg: Register, bg: Register, rs: Register, ul: Register)
    ensures fresh(ef) && fresh(fg) && fresh(bg) && fresh(rs) && fresh(ul)
    ensures ef.styles == EfStyles() && fg.styles == FgStyles() && bg.styles == BgStyles()
    ensures rs.styles == RsStyles() && ul.styles == UnderlineStyles()
    ensures ef.renderfuncs == EfRenderFuncs() && fg.renderfuncs == FgRenderFuncs()
    ensures bg.renderfuncs == BgRenderFuncs() && rs.renderfuncs == RsRenderFuncs()
    ensures ul.renderfuncs == UnderlineRenderFuncs()
    ensures !ef.eightbitCall && !ef.rgbCall && !rs.eightbitCall && !rs.rgbCall
    ensures fg.eightbitCall && fg.rgbCall && bg.eightbitCall && bg.rgbCall
    ensures ul.eightbitCall && ul.rgbCall
    ensures ef.Valid() && fg.Valid() && bg.Valid() && rs.Valid() && ul.Valid()
    ensures ef != fg && ef != bg && ef != rs && ef != ul
    ensures fg != bg && fg != rs && fg != ul
    ensures bg != rs && bg != ul && rs != ul
  {
    ef := new Register.Ef();
    fg := new Register.Fg();
    bg := new Register.Bg();
    rs := new Register.Rs();
    ul := new Register.Underline();
  }

  /** Adding a variant to the dispatch table keeps every style dispatchable. */
  lemma MoreKindsKeepDispatchable(kinds: set<Kind>, more: set<Kind>, styles: map<string, Style>)
    requires kinds <= more
    requires AllDispatchable(kinds, styles)
    ensures AllDispatchable(more, styles)
  {
  }

  /** Binding a dispatchable style under any name keeps every style dispatchable. */
  lemma BindingKeepsDispatchable(kinds: set<Kind>, styles: map<string, Style>, name: string, s: Style)
    requires AllDispatchable(kinds, styles)
    requires Dispatchable(kinds, s)
    ensures AllDispatchable(kinds, styles[name := s])
  {
  }

  /** Some style of `styles` holds a render type of variant `k`. */
  predicate UsesKind(styles: map<string, Style>, k: Kind)
  {
    exists name, i :: name in styles && 0 <= i < |styles[name]| && styles[name][i].Kind() == k
  }

  // The dispatch table and the named styles each preset register ends up
  // with, and the proofs that every preset style can be dispatched.

  function EfRenderFuncs(): map<Kind, RenderFunc>
  {
    map[SgrKind := SgrFunc]
  }

  function FgRenderFuncs(): map<Kind, RenderFunc>
  {
    map[SgrKind := SgrFunc, EightbitKind := EightbitFgFunc, RgbKind := RgbFgFunc]
  }

  function BgRenderFuncs(): map<Kind, RenderFunc>
  {
    map[SgrKind := SgrFunc, EightbitKind := EightbitBgFunc, RgbKind := RgbBgFunc]
  }

  function UnderlineRenderFuncs(): map<Kind, RenderFunc>
  {
    map[SgrKind := SgrFunc, SgrArgsKind := SgrArgsFunc,
      EightbitKind := EightbitUnderlineFunc, RgbKind := RgbUnderlineFunc]
  }

  function RsRenderFuncs(): map<Kind, RenderFunc>
  {
    map[SgrKind := SgrFunc]
  }


  function EfStyles(): map<string, Style>
  {
    map[
      "b" := [Sgr(1)], "bold" := [Sgr(1)], "dim" := [Sgr(2)],
      "i" := [Sgr(3)], "italic" := [Sgr(3)], "u" := [Sgr(4)], "underl" := [Sgr(4)],
      "blink" := [Sgr(5)], "inverse" := [Sgr(7)], "hidden" := [Sgr(8)], "strike" := [Sgr(9)],
      "rs" := [Sgr(22), Sgr(23), Sgr(24), Sgr(25), Sgr(27), Sgr(28), Sgr(29)]
    ]
  }

  function FgStyles(): map<string, Style>
  {
    map[
      "black" := [Sgr(30)], "red" := [Sgr(31)], "green" := [Sgr(32)], "yellow" := [Sgr(33)],
      "blue" := [Sgr(34)], "magenta" := [Sgr(35)], "cyan" := [Sgr(36)], "li_grey" := [Sgr(37)],
      "rs" := [Sgr(39)],
      "da_grey" := [Sgr(90)], "li_red" := [Sgr(91)], "li_green" := [Sgr(92)], "li_yellow" := [Sgr(93)],
      "li_blue" := [Sgr(94)], "li_magenta" := [Sgr(95)], "li_cyan" := [Sgr(96)], "white" := [Sgr(97)],
      "da_black" := [Eightbit(0)], "da_red" := [Eightbit(88)], "da_green" := [Eightbit(22)],
      "da_yellow" := [Eightbit(58)], "da_blue" := [Eightbit(18)], "da_magenta" := [Eightbit(89)],
      "da_cyan" := [Eightbit(23)], "grey" := [Eightbit(249)]
    ]
  }

  function BgStyles(): map<string, Style>
  {
    map[
      "black" := [Sgr(40)], "red" := [Sgr(41)], "green" := [Sgr(42)], "yellow" := [Sgr(43)],
      "blue" := [Sgr(44)], "magenta" := [Sgr(45)], "cyan" := [Sgr(46)], "li_grey" := [Sgr(47)],
      "rs" := [Sgr(49)],
      "da_grey" := [Sgr(100)], "li_red" := [Sgr(101)], "li_green" := [Sgr(102)], "li_yellow" := [Sgr(103)],
      "li_blue" := [Sgr(104)], "li_magenta" := [Sgr(105)], "li_cyan" := [Sgr(106)], "white" := [Sgr(107)],
      "da_black" := [Eightbit(0)], "da_red" := [Eightbit(88)], "da_green" := [Eightbit(22)],
      "da_yellow" := [Eightbit(58)], "da_blue" := [Eightbit(18)], "da_magenta" := [Eightbit(89)],
      "da_cyan" := [Eightbit(23)], "grey" := [Eightbit(249)]
    ]
  }

  function UnderlineStyles(): map<string, Style>
  {
    map[
      "on" := [Sgr(4)], "off" := [Sgr(24)], "line" := [Sgr(4)],
      "double" := [SgrArgs(4, [2])], "curly" := [SgrArgs(4, [3])],
      "dotted" := [SgrArgs(4, [4])], "dashed" := [SgrArgs(4, [5])],
      "black" := [Eightbit(0)], "red" := [Eightbit(1)], "green" := [Eightbit(2)], "yellow" := [Eightbit(3)],
      "blue" := [Eightbit(4)], "magenta" := [Eightbit(5)], "cyan" := [Eightbit(6)], "li_grey" := [Eightbit(7)],
      "rs" := [Sgr(59), Sgr(24)], "default" := [Sgr(59)],
      "da_grey" := [Eightbit(8)], "li_red" := [Eightbit(9)], "li_green" := [Eightbit(10)],
      "li_yellow" := [Eightbit(11)], "li_blue" := [Eightbit(12)], "li_magenta" := [Eightbit(13)],
      "li_cyan" := [Eightbit(14)], "white" := [Eightbit(15)],
      "da_black" := [Eightbit(0)], "da_red" := [Eightbit(88)], "da_green" := [Eightbit(22)],
      "da_yellow" := [Eightbit(58)], "da_blue" := [Eightbit(18)], "da_magenta" := [Eightbit(89)],
      "da_cyan" := [Eightbit(23)], "grey" := [Eightbit(249)]
    ]
  }

  function RsStyles(): map<string, Style>
  {
    map[
      "all" := [Sgr(0)], "fg" := [Sgr(39)], "bg" := [Sgr(49)],
      "ef" := [Sgr(22), Sgr(23), Sgr(24), Sgr(25), Sgr(27), Sgr(28), Sgr(29)],
      "bold_dim" := [Sgr(22)], "dim_bold" := [Sgr(22)],
      "i" := [Sgr(23)], "italic" := [Sgr(23)], "u" := [Sgr(24)], "underl" := [Sgr(24)],
      "blink" := [Sgr(25)], "inverse" := [Sgr(27)], "hidden" := [Sgr(28)], "strike" := [Sgr(29)]
    ]
  }

  lemma EfDispatch()
    ensures AllDispatchable({SgrKind}, EfStyles())
  {
    forall s | s in EfStyles().Values ensures Dispatchable({SgrKind}, s) {}
  }

  lemma FgDispatch()
    ensures AllDispatchable({SgrKind, EightbitKind}, FgStyles())
  {
    forall s | s in FgStyles().Values ensures Dispatchable({SgrKind, EightbitKind}, s) {}
  }

  lemma BgDispatch()
    ensures AllDispatchable({SgrKind, EightbitKind}, BgStyles())
  {
    forall s | s in BgStyles().Values ensures Dispatchable({SgrKind, EightbitKind}, s) {}
  }

  lemma UnderlineDispatch()
    ensures AllDispatchable({SgrKind, SgrArgsKind, EightbitKind}, UnderlineStyles())
  {
    forall s | s in UnderlineStyles().Values ensures Dispatchable({SgrKind, SgrArgsKind, EightbitKind}, s) {}
  }

  lemma RsDispatch()
    ensures AllDispatchable({SgrKind}, RsStyles())
  {
    forall s | s in RsStyles().Values ensures Dispatchable({SgrKind}, s) {}
  }
}
