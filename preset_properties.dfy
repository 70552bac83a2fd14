/**
 * Facts about the five preset registers: which variants their styles use,
 * which names are aliases, how resets agree across registers, that background
 * codes are foreground codes plus 10 and reset codes effect codes plus 20,
 * and that every 8-bit palette index lies within 0..255.
 */
module PresetProperties {
  import opened RenderTypes
  import opened Registers

  /** The classic colour names, in declaration order. */
  const ClassicColours: seq<string> :=
    ["black", "red", "green", "yellow", "blue", "magenta", "cyan", "li_grey"]

  /** The bright colour names, in declaration order. */
  const BrightColours: seq<string> :=
    ["da_grey", "li_red", "li_green", "li_yellow", "li_blue", "li_magenta", "li_cyan", "white"]

  /** The dark colour names and `grey`, given by 8-bit palette index everywhere. */
  const DarkColours: seq<string> :=
    ["da_black", "da_red", "da_green", "da_yellow", "da_blue", "da_magenta", "da_cyan", "grey"]

  /** The 8-bit palette indices of `DarkColours`, in the same order. */
  const DarkIndices: seq<int> := [0, 88, 22, 58, 18, 89, 23, 249]

  /** The effects that have a reset of their own, in declaration order. */
  const SingleResetEffects: seq<string> :=
    ["italic", "underl", "blink", "inverse", "hidden", "strike"]

  /** The code of a style made of exactly one plain SGR parameter. */
  function SgrCode(s: Style): Option<int>
  {
    if |s| == 1 && s[0].Sgr? then Some(s[0].num) else None
  }

  /** `names[i]` is bound in `m` to the single SGR code `first + i`. */
  predicate SgrCodesFrom(m: map<string, Style>, names: seq<string>, first: int)
  {
    forall i :: 0 <= i < |names| ==> names[i] in m && SgrCode(m[names[i]]) == Some(first + i)
  }

  /** `names[i]` is bound in `m` to the single 8-bit palette index `indices[i]`. */
  predicate PaletteAt(m: map<string, Style>, names: seq<string>, indices: seq<int>)
  {
    |names| == |indices| &&
    forall i :: 0 <= i < |names| ==> names[i] in m && m[names[i]] == [Eightbit(indices[i])]
  }

  /** Every 8-bit palette index in `s` lies within 0..255. */
  predicate PaletteBounded(s: Style)
  {
    forall i :: 0 <= i < |s| && s[i].Eightbit? ==> 0 <= s[i].index <= 255
  }

  lemma Below8(i: int)
    requires 0 <= i < 8
    ensures i == 0 || i == 1 || i == 2 || i == 3 || i == 4 || i == 5 || i == 6 || i == 7
  {
  }

  /** Eight lookups, one per name, give `PaletteAt` for those names. */
  lemma PaletteOfEight(m: map<string, Style>, names: seq<string>, indices: seq<int>)
    requires |names| == |indices| == 8
    requires names[0] in m && m[names[0]] == [Eightbit(indices[0])]
    requires names[1] in m && m[names[1]] == [Eightbit(indices[1])]
    requires names[2] in m && m[names[2]] == [Eightbit(indices[2])]
    requires names[3] in m && m[names[3]] == [Eightbit(indices[3])]
    requires names[4] in m && m[names[4]] == [Eightbit(indices[4])]
    requires names[5] in m && m[names[5]] == [Eightbit(indices[5])]
    requires names[6] in m && m[names[6]] == [Eightbit(indices[6])]
    requires names[7] in m && m[names[7]] == [Eightbit(indices[7])]
    ensures PaletteAt(m, names, indices)
  {
    forall i | 0 <= i < 8
      ensures names[i] in m && m[names[i]] == [Eightbit(indices[i])]
    {
      Below8(i);
    }
  }

  /** Eight lookups, one per name, give `SgrCodesFrom` for those names. */
  lemma SgrCodesOfEight(m: map<string, Style>, names: seq<string>, first: int)
    requires |names| == 8
    requires names[0] in m && SgrCode(m[names[0]]) == Some(first)
    requires names[1] in m && SgrCode(m[names[1]]) == Some(first + 1)
    requires names[2] in m && SgrCode(m[names[2]]) == Some(first + 2)
    requires names[3] in m && SgrCode(m[names[3]]) == Some(first + 3)
    requires names[4] in m && SgrCode(m[names[4]]) == Some(first + 4)
    requires names[5] in m && SgrCode(m[names[5]]) == Some(first + 5)
    requires names[6] in m && SgrCode(m[names[6]]) == Some(first + 6)
    requires names[7] in m && SgrCode(m[names[7]]) == Some(first + 7)
    ensures SgrCodesFrom(m, names, first)
  {
    forall i | 0 <= i < 8
      ensures names[i] in m && SgrCode(m[names[i]]) == Some(first + i)
    {
      Below8(i);
    }
  }

  // Variants in use.

  /** The effect register's styles use plain SGR codes and nothing else. */
  lemma EffectKindsInUse()
    ensures UsesKind(EfStyles(), SgrKind)
    ensures forall k :: k != SgrKind ==> !UsesKind(EfStyles(), k)
  {
    EfDispatch();
    assert EfStyles()["bold"][0] == Sgr(1);
  }

  /**
   * The foreground register's styles use plain SGR codes and 8-bit indices;
   * RGB is registered but no preset uses it.
   */
  lemma ForegroundKindsInUse()
    ensures UsesKind(FgStyles(), SgrKind) && UsesKind(FgStyles(), EightbitKind)
    ensures !UsesKind(FgStyles(), RgbKind) && !UsesKind(FgStyles(), SgrArgsKind)
    ensures RgbKind in FgRenderFuncs()
  {
    FgDispatch();
    assert FgStyles()["rs"][0] == Sgr(39);
    assert FgStyles()["grey"][0] == Eightbit(249);
  }

  /**
   * The background register's styles use plain SGR codes and 8-bit indices;
   * RGB is registered but no preset uses it.
   */
  lemma BackgroundKindsInUse()
    ensures UsesKind(BgStyles(), SgrKind) && UsesKind(BgStyles(), EightbitKind)
    ensures !UsesKind(BgStyles(), RgbKind) && !UsesKind(BgStyles(), SgrArgsKind)
    ensures RgbKind in BgRenderFuncs()
  {
    BgDispatch();
    assert BgStyles()["rs"][0] == Sgr(49);
    assert BgStyles()["grey"][0] == Eightbit(249);
  }

  /** The underline register's styles use SGR codes, SGR codes with arguments and 8-bit indices. */
  lemma UnderlineKindsInUse()
    ensures UsesKind(UnderlineStyles(), SgrKind)
    ensures UsesKind(UnderlineStyles(), SgrArgsKind)
    ensures UsesKind(UnderlineStyles(), EightbitKind)
    ensures !UsesKind(UnderlineStyles(), RgbKind)
  {
    UnderlineDispatch();
    assert UnderlineStyles()["grey"][0] == Eightbit(249);
    assert UnderlineStyles()["default"][0] == Sgr(59);
    assert UnderlineStyles()["dashed"][0] == SgrArgs(4, [5]);
  }

  /** The reset register's styles use plain SGR codes and nothing else. */
  lemma ResetKindsInUse()
    ensures UsesKind(RsStyles(), SgrKind)
    ensures forall k :: k != SgrKind ==> !UsesKind(RsStyles(), k)
  {
    RsDispatch();
    assert RsStyles()["all"][0] == Sgr(0);
  }

  /**
   * Sgr goes to one formatter everywhere; the foreground, background and
   * underline registers send Eightbit and Rgb to three different formatters.
   */
  lemma PerRegisterDispatch()
    ensures forall t: map<Kind, RenderFunc> ::
      t in [EfRenderFuncs(), FgRenderFuncs(), BgRenderFuncs(), UnderlineRenderFuncs(), RsRenderFuncs()]
      ==> SgrKind in t && t[SgrKind] == SgrFunc
    ensures FgRenderFuncs()[EightbitKind] != BgRenderFuncs()[EightbitKind]
    ensures FgRenderFuncs()[EightbitKind] != UnderlineRenderFuncs()[EightbitKind]
    ensures BgRenderFuncs()[EightbitKind] != UnderlineRenderFuncs()[EightbitKind]
    ensures FgRenderFuncs()[RgbKind] != BgRenderFuncs()[RgbKind]
    ensures FgRenderFuncs()[RgbKind] != UnderlineRenderFuncs()[RgbKind]
    ensures BgRenderFuncs()[RgbKind] != UnderlineRenderFuncs()[RgbKind]
    ensures SgrArgsKind in UnderlineRenderFuncs()
    ensures SgrArgsKind !in FgRenderFuncs() && SgrArgsKind !in BgRenderFuncs()
  {
  }

  // Aliases.

  /** Effect aliases name identical sequences. */
  lemma EffectAliases()
    ensures EfStyles()["b"] == EfStyles()["bold"] == [Sgr(1)]
    ensures EfStyles()["i"] == EfStyles()["italic"] == [Sgr(3)]
    ensures EfStyles()["u"] == EfStyles()["underl"] == [Sgr(4)]
  {
  }

  /** Reset aliases name identical sequences. */
  lemma ResetAliases()
    ensures RsStyles()["bold_dim"] == RsStyles()["dim_bold"] == [Sgr(22)]
    ensures RsStyles()["i"] == RsStyles()["italic"] == [Sgr(23)]
    ensures RsStyles()["u"] == RsStyles()["underl"] == [Sgr(24)]
  {
  }

  /** `on` and `line` are the same plain underline. */
  lemma UnderlineOnIsLine()
    ensures UnderlineStyles()["on"] == UnderlineStyles()["line"] == [Sgr(4)]
  {
  }

  /** The four underline styles are plain underline with one extra argument 2..5. */
  lemma UnderlineStylesExtendOn()
    ensures forall i :: 0 <= i < 4 ==>
      ["double", "curly", "dotted", "dashed"][i] in UnderlineStyles() &&
      UnderlineStyles()[["double", "curly", "dotted", "dashed"][i]] == [SgrArgs(4, [2 + i])] &&
      SgrArgs(4, [2 + i]).Args() == Sgr(4).Args() + [2 + i]
  {
    var m := UnderlineStyles();
    assert m["double"] == [SgrArgs(4, [2])];
    assert m["curly"] == [SgrArgs(4, [3])];
    assert m["dotted"] == [SgrArgs(4, [4])];
    assert m["dashed"] == [SgrArgs(4, [5])];
    forall i | 0 <= i < 4
      ensures ["double", "curly", "dotted", "dashed"][i] in m
      ensures m[["double", "curly", "dotted", "dashed"][i]] == [SgrArgs(4, [2 + i])]
    {
      Below8(i);
    }
  }

  // Resets.

  /** Foreground and background resets agree with the reset register. */
  lemma ColourResetsAgree()
    ensures FgStyles()["rs"] == RsStyles()["fg"] == [Sgr(39)]
    ensures BgStyles()["rs"] == RsStyles()["bg"] == [Sgr(49)]
  {
  }

  /** The underline reset is the default underline colour followed by underline off. */
  lemma UnderlineResetIsDefaultThenOff()
    ensures UnderlineStyles()["default"] == [Sgr(59)]
    ensures UnderlineStyles()["off"] == [Sgr(24)]
    ensures UnderlineStyles()["rs"] == UnderlineStyles()["default"] + UnderlineStyles()["off"]
  {
  }

  /** Resetting all effects is the same seven codes in both registers. */
  lemma EffectResetsAgree()
    ensures EfStyles()["rs"] == RsStyles()["ef"]
    ensures EfStyles()["rs"] == [Sgr(22), Sgr(23), Sgr(24), Sgr(25), Sgr(27), Sgr(28), Sgr(29)]
  {
  }

  /**
   * Resetting all effects is resetting each effect in turn, in declaration
   * order, with bold and dim sharing one reset.
   */
  lemma EffectResetIsEachReset()
    ensures RsStyles()["ef"] == RsStyles()["bold_dim"] + RsStyles()["italic"] + RsStyles()["underl"]
                              + RsStyles()["blink"] + RsStyles()["inverse"] + RsStyles()["hidden"]
                              + RsStyles()["strike"]
  {
    var m := RsStyles();
    assert m["ef"] == [Sgr(22), Sgr(23), Sgr(24), Sgr(25), Sgr(27), Sgr(28), Sgr(29)];
    assert m["bold_dim"] == [Sgr(22)];
    assert m["italic"] == [Sgr(23)];
    assert m["underl"] == [Sgr(24)];
    assert m["blink"] == [Sgr(25)];
    assert m["inverse"] == [Sgr(27)];
    assert m["hidden"] == [Sgr(28)];
    assert m["strike"] == [Sgr(29)];
  }

  /** The single-reset effects have codes 3, 4, 5, 7, 8, 9; bold is 1 and dim 2. */
  lemma EffectCodes()
    ensures forall i :: 0 <= i < |SingleResetEffects| ==>
      SingleResetEffects[i] in EfStyles() &&
      SgrCode(EfStyles()[SingleResetEffects[i]]) == Some([3, 4, 5, 7, 8, 9][i])
    ensures SgrCode(EfStyles()["bold"]) == Some(1) && SgrCode(EfStyles()["dim"]) == Some(2)
  {
    var m := EfStyles();
    assert m["italic"] == [Sgr(3)];
    assert m["underl"] == [Sgr(4)];
    assert m["blink"] == [Sgr(5)];
    assert m["inverse"] == [Sgr(7)];
    assert m["hidden"] == [Sgr(8)];
    assert m["strike"] == [Sgr(9)];
    forall i | 0 <= i < |SingleResetEffects|
      ensures SingleResetEffects[i] in m
      ensures SgrCode(m[SingleResetEffects[i]]) == Some([3, 4, 5, 7, 8, 9][i])
    {
      Below8(i);
    }
  }

  /** The single resets have codes 23, 24, 25, 27, 28, 29. */
  lemma SingleResetCodes()
    ensures forall i :: 0 <= i < |SingleResetEffects| ==>
      SingleResetEffects[i] in RsStyles() &&
      SgrCode(RsStyles()[SingleResetEffects[i]]) == Some([23, 24, 25, 27, 28, 29][i])
  {
    var m := RsStyles();
    assert m["italic"] == [Sgr(23)];
    assert m["underl"] == [Sgr(24)];
    assert m["blink"] == [Sgr(25)];
    assert m["inverse"] == [Sgr(27)];
    assert m["hidden"] == [Sgr(28)];
    assert m["strike"] == [Sgr(29)];
    forall i | 0 <= i < |SingleResetEffects|
      ensures SingleResetEffects[i] in m
      ensures SgrCode(m[SingleResetEffects[i]]) == Some([23, 24, 25, 27, 28, 29][i])
    {
      Below8(i);
    }
  }

  /**
   * Each effect with a reset of its own is reset by its code plus 20; bold (1)
   * and dim (2) share the single reset 22.
   */
  lemma ResetIsEffectPlusTwenty()
    ensures forall name :: name in SingleResetEffects ==>
      name in EfStyles() && name in RsStyles() && SgrCode(EfStyles()[name]).Some? &&
      SgrCode(RsStyles()[name]) == Some(SgrCode(EfStyles()[name]).value + 20)
    ensures SgrCode(EfStyles()["bold"]) == Some(1) && SgrCode(EfStyles()["dim"]) == Some(2)
    ensures SgrCode(RsStyles()["bold_dim"]) == SgrCode(RsStyles()["dim_bold"]) == Some(22)
  {
    EffectCodes();
    SingleResetCodes();
    ResetAliases();
    forall name | name in SingleResetEffects
      ensures name in EfStyles() && name in RsStyles() && SgrCode(EfStyles()[name]).Some?
      ensures SgrCode(RsStyles()[name]) == Some(SgrCode(EfStyles()[name]).value + 20)
    {
      var i :| 0 <= i < |SingleResetEffects| && SingleResetEffects[i] == name;
      Below8(i);
    }
  }

  // Colours.

  /** The classic foreground colours are SGR 30..37 in declaration order. */
  lemma ForegroundClassicCodes()
    ensures SgrCodesFrom(FgStyles(), ClassicColours, 30)
  {
    var m := FgStyles();
    assert m["black"] == [Sgr(30)];
    assert m["red"] == [Sgr(31)];
    assert m["green"] == [Sgr(32)];
    assert m["yellow"] == [Sgr(33)];
    assert m["blue"] == [Sgr(34)];
    assert m["magenta"] == [Sgr(35)];
    assert m["cyan"] == [Sgr(36)];
    assert m["li_grey"] == [Sgr(37)];
    SgrCodesOfEight(m, ClassicColours, 30);
  }

  /** The bright foreground colours are SGR 90..97 in declaration order. */
  lemma ForegroundBrightCodes()
    ensures SgrCodesFrom(FgStyles(), BrightColours, 90)
  {
    var m := FgStyles();
    assert m["da_grey"] == [Sgr(90)];
    assert m["li_red"] == [Sgr(91)];
    assert m["li_green"] == [Sgr(92)];
    assert m["li_yellow"] == [Sgr(93)];
    assert m["li_blue"] == [Sgr(94)];
    assert m["li_magenta"] == [Sgr(95)];
    assert m["li_cyan"] == [Sgr(96)];
    assert m["white"] == [Sgr(97)];
    SgrCodesOfEight(m, BrightColours, 90);
  }

  /** The classic background colours are SGR 40..47 in declaration order. */
  lemma BackgroundClassicCodes()
    ensures SgrCodesFrom(BgStyles(), ClassicColours, 40)
  {
    var m := BgStyles();
    assert m["black"] == [Sgr(40)];
    assert m["red"] == [Sgr(41)];
    assert m["green"] == [Sgr(42)];
    assert m["yellow"] == [Sgr(43)];
    assert m["blue"] == [Sgr(44)];
    assert m["magenta"] == [Sgr(45)];
    assert m["cyan"] == [Sgr(46)];
    assert m["li_grey"] == [Sgr(47)];
    SgrCodesOfEight(m, ClassicColours, 40);
  }

  /** The bright background colours are SGR 100..107 in declaration order. */
  lemma BackgroundBrightCodes()
    ensures SgrCodesFrom(BgStyles(), BrightColours, 100)
  {
    var m := BgStyles();
    assert m["da_grey"] == [Sgr(100)];
    assert m["li_red"] == [Sgr(101)];
    assert m["li_green"] == [Sgr(102)];
    assert m["li_yellow"] == [Sgr(103)];
    assert m["li_blue"] == [Sgr(104)];
    assert m["li_magenta"] == [Sgr(105)];
    assert m["li_cyan"] == [Sgr(106)];
    assert m["white"] == [Sgr(107)];
    SgrCodesOfEight(m, BrightColours, 100);
  }

  /**
   * For every classic and bright colour, the foreground code is in 30..37 or
   * 90..97 and the background code is the foreground code plus 10.
   */
  lemma BackgroundIsForegroundPlusTen()
    ensures forall name :: name in ClassicColours + BrightColours ==>
      name in FgStyles() && name in BgStyles() && SgrCode(FgStyles()[name]).Some? &&
      (30 <= SgrCode(FgStyles()[name]).value <= 37 || 90 <= SgrCode(FgStyles()[name]).value <= 97) &&
      SgrCode(BgStyles()[name]) == Some(SgrCode(FgStyles()[name]).value + 10)
  {
    ForegroundClassicCodes();
    ForegroundBrightCodes();
    BackgroundClassicCodes();
    BackgroundBrightCodes();
    forall name | name in ClassicColours + BrightColours
      ensures name in FgStyles() && name in BgStyles() && SgrCode(FgStyles()[name]).Some?
      ensures 30 <= SgrCode(FgStyles()[name]).value <= 37 || 90 <= SgrCode(FgStyles()[name]).value <= 97
      ensures SgrCode(BgStyles()[name]) == Some(SgrCode(FgStyles()[name]).value + 10)
    {
      if name in ClassicColours {
        var i :| 0 <= i < |ClassicColours| && ClassicColours[i] == name;
      } else {
        var i :| 0 <= i < |BrightColours| && BrightColours[i] == name;
      }
    }
  }

  // The 8-bit palette.

  /** The foreground register's dark colours and grey. */
  lemma ForegroundDarkPalette()
    ensures PaletteAt(FgStyles(), DarkColours, DarkIndices)
  {
    var m := FgStyles();
    assert m["da_black"] == [Eightbit(0)];
    assert m["da_red"] == [Eightbit(88)];
    assert m["da_green"] == [Eightbit(22)];
    assert m["da_yellow"] == [Eightbit(58)];
    assert m["da_blue"] == [Eightbit(18)];
    assert m["da_magenta"] == [Eightbit(89)];
    assert m["da_cyan"] == [Eightbit(23)];
    assert m["grey"] == [Eightbit(249)];
    PaletteOfEight(m, DarkColours, DarkIndices);
  }

  /** The background register's dark colours and grey. */
  lemma BackgroundDarkPalette()
    ensures PaletteAt(BgStyles(), DarkColours, DarkIndices)
  {
    var m := BgStyles();
    assert m["da_black"] == [Eightbit(0)];
    assert m["da_red"] == [Eightbit(88)];
    assert m["da_green"] == [Eightbit(22)];
    assert m["da_yellow"] == [Eightbit(58)];
    assert m["da_blue"] == [Eightbit(18)];
    assert m["da_magenta"] == [Eightbit(89)];
    assert m["da_cyan"] == [Eightbit(23)];
    assert m["grey"] == [Eightbit(249)];
    PaletteOfEight(m, DarkColours, DarkIndices);
  }

  /** The underline register's dark colours and grey. */
  lemma UnderlineDarkPalette()
    ensures PaletteAt(UnderlineStyles(), DarkColours, DarkIndices)
  {
    var m := UnderlineStyles();
    assert m["da_black"] == [Eightbit(0)];
    assert m["da_red"] == [Eightbit(88)];
    assert m["da_green"] == [Eightbit(22)];
    assert m["da_yellow"] == [Eightbit(58)];
    assert m["da_blue"] == [Eightbit(18)];
    assert m["da_magenta"] == [Eightbit(89)];
    assert m["da_cyan"] == [Eightbit(23)];
    assert m["grey"] == [Eightbit(249)];
    PaletteOfEight(m, DarkColours, DarkIndices);
  }

  /**
   * The dark colours and grey are one and the same 8-bit palette entry, within
   * 0..255, in the foreground, background and underline registers.
   */
  lemma DarkPaletteShared()
    ensures forall name :: name in DarkColours ==>
      name in FgStyles() && name in BgStyles() && name in UnderlineStyles() &&
      FgStyles()[name] == BgStyles()[name] == UnderlineStyles()[name] &&
      |FgStyles()[name]| == 1 && FgStyles()[name][0].Eightbit? &&
      0 <= FgStyles()[name][0].index <= 255
  {
    ForegroundDarkPalette();
    BackgroundDarkPalette();
    UnderlineDarkPalette();
    forall name | name in DarkColours
      ensures name in FgStyles() && name in BgStyles() && name in UnderlineStyles()
      ensures FgStyles()[name] == BgStyles()[name] == UnderlineStyles()[name]
      ensures |FgStyles()[name]| == 1 && FgStyles()[name][0].Eightbit?
      ensures 0 <= FgStyles()[name][0].index <= 255
    {
      var i :| 0 <= i < |DarkColours| && DarkColours[i] == name;
      Below8(i);
    }
  }

  /**
   * The underline register's classic and bright colours are the 8-bit
   * palette indices 0..15, in declaration order.
   */
  lemma UnderlineBasicPalette()
    ensures PaletteAt(UnderlineStyles(), ClassicColours, [0, 1, 2, 3, 4, 5, 6, 7])
    ensures PaletteAt(UnderlineStyles(), BrightColours, [8, 9, 10, 11, 12, 13, 14, 15])
  {
    UnderlineClassicPalette();
    UnderlineBrightPalette();
  }

  lemma UnderlineClassicPalette()
    ensures PaletteAt(UnderlineStyles(), ClassicColours, [0, 1, 2, 3, 4, 5, 6, 7])
  {
    var m := UnderlineStyles();
    assert m["black"] == [Eightbit(0)];
    assert m["red"] == [Eightbit(1)];
    assert m["green"] == [Eightbit(2)];
    assert m["yellow"] == [Eightbit(3)];
    assert m["blue"] == [Eightbit(4)];
    assert m["magenta"] == [Eightbit(5)];
    assert m["cyan"] == [Eightbit(6)];
    assert m["li_grey"] == [Eightbit(7)];
    PaletteOfEight(m, ClassicColours, [0, 1, 2, 3, 4, 5, 6, 7]);
  }

  lemma UnderlineBrightPalette()
    ensures PaletteAt(UnderlineStyles(), BrightColours, [8, 9, 10, 11, 12, 13, 14, 15])
  {
    var m := UnderlineStyles();
    assert m["da_grey"] == [Eightbit(8)];
    assert m["li_red"] == [Eightbit(9)];
    assert m["li_green"] == [Eightbit(10)];
    assert m["li_yellow"] == [Eightbit(11)];
    assert m["li_blue"] == [Eightbit(12)];
    assert m["li_magenta"] == [Eightbit(13)];
    assert m["li_cyan"] == [Eightbit(14)];
    assert m["white"] == [Eightbit(15)];
    PaletteOfEight(m, BrightColours, [8, 9, 10, 11, 12, 13, 14, 15]);
  }

  /** Every 8-bit palette index the foreground register holds lies within 0..255. */
  lemma ForegroundPaletteInRange()
    ensures forall name :: name in FgStyles() ==> PaletteBounded(FgStyles()[name])
  {
    forall s | s in FgStyles().Values ensures PaletteBounded(s) {}
  }

  /** Every 8-bit palette index the background register holds lies within 0..255. */
  lemma BackgroundPaletteInRange()
    ensures forall name :: name in BgStyles() ==> PaletteBounded(BgStyles()[name])
  {
    forall s | s in BgStyles().Values ensures PaletteBounded(s) {}
  }

  /** Every 8-bit palette index the underline register holds lies within 0..255. */
  lemma UnderlinePaletteInRange()
    ensures forall name :: name in UnderlineStyles() ==> PaletteBounded(UnderlineStyles()[name])
  {
    forall s | s in UnderlineStyles().Values ensures PaletteBounded(s) {}
  }
}
