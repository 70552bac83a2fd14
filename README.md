# sty render types and preset registers, in Dafny

This project models the core of `sty`, a library that builds ANSI terminal
styling sequences. It covers two pieces.

- **Render types** (`RenderTypes`, `rendertype.dfy`). These are immutable
  descriptors of one SGR parameter set. SGR is Select Graphic Rendition,
  section 8.3.117 of ECMA-48.
  - `Sgr(num)` holds one plain code.
  - `SgrArgs(num, extra)` holds a code followed by sub-arguments.
  - `Eightbit(index)` holds an 8-bit palette index.
  - `Rgb(r, g, b)` holds a 24-bit colour.
  - `Base` is the bare base class, whose argument list is empty.
  - `Kind()` gives the variant tag a register's dispatch table is keyed on.
  - `Args()` gives the ordered argument list.
  - `EightbitFg`/`EightbitBg`/`RgbFg`/`RgbBg` are the backward-compatible
    names of the same variants.
- **Registers** (`Registers`, `register.dfy`). A `Register` object has four fields:
  - `renderfuncs`: the dispatch table, from variant to formatter name;
  - `eightbitCall` and `rgbCall`: whether the dynamic 8-bit and RGB
    constructors are bound;
  - `styles`: the named styles, each an ordered `seq<RenderType>`.

  The five preset registers (effects, foreground, background, underline,
  reset) are the named constructors `Ef`, `Fg`, `Bg`, `Underline` and `Rs`.
  Each builds its state one entry at a time through `SetRenderFunc`,
  `SetEightbitCall`, `SetRgbCall` and `SetStyle`, in the source's order. Each
  constructor ends with its table, flags and styles equal to the preset
  functions `XRenderFuncs()` and `XStyles()`, and with `Valid()`: every style
  uses only variants its table can dispatch.
- **Preset properties** (`PresetProperties`, `preset_properties.dfy`). These
  are facts about the five registers taken together:
  - the variants each register's styles use;
  - which names are aliases;
  - how the resets agree across registers;
  - background codes are foreground codes plus 10;
  - reset codes are effect codes plus 20;
  - the shared 8-bit palette entries are equal;
  - every 8-bit index lies within 0..255.

Formatters are modelled only by name (`RenderFunc`). A formatter turns a
render type into escape bytes, and that output is not part of this model.

## Model

| member | source | states |
|---|---|---|
| `RenderTypes.RenderType.Kind` | sty/rendertype.py:12-64 | each descriptor's tag is exactly its variant (one tag per class) |
| `RenderTypes.RenderType.Args` | sty/rendertype.py:9-64 | the argument list has its variant's shape: empty for the base, one element for `Sgr`/`Eightbit`, at least one for `SgrArgs`, three for `Rgb` |
| `RenderTypes.FromArgs` | sty/rendertype.py:21-64 | rebuilding from a tag and a list succeeds exactly when the list has the tag's shape, and yields a descriptor with that tag and that list |
| `RenderTypes.ArgsRoundTrip` | sty/rendertype.py:21-64 | rebuilding any descriptor from its own tag and argument list gives it back |
| `RenderTypes.KindAndArgsDetermine` | sty/rendertype.py:21-64 | two descriptors with the same tag and the same argument list are equal |
| `RenderTypes.ConstructorArgs` | sty/rendertype.py:9-64 | base args are `[]`; `Sgr(n)` and `Eightbit(n)` store `[n]`; `SgrArgs(n, e)` stores `n` then `e`, length 1+\|e\|, and with no extras equals `Sgr(n)`'s; `Rgb(r,g,b)` stores `[r, g, b]`; for every integer, with no range check |
| `RenderTypes.EightbitLooksLikeSgr` | sty/rendertype.py:21-49 | `Eightbit(n)` has the same argument list as `Sgr(n)` but a different tag |
| `RenderTypes.EightbitFg` | sty/rendertype.py:68 | builds an `Eightbit` descriptor holding `[num]` |
| `RenderTypes.EightbitBg` | sty/rendertype.py:69 | builds an `Eightbit` descriptor holding `[num]` |
| `RenderTypes.RgbFg` | sty/rendertype.py:70 | builds an `Rgb` descriptor holding `[r, g, b]` |
| `RenderTypes.RgbBg` | sty/rendertype.py:71 | builds an `Rgb` descriptor holding `[r, g, b]` |
| `RenderTypes.AliasesIndistinguishable` | sty/rendertype.py:67-71 | the foreground and background aliases build identical values, so any table keyed on the tag gives them the same entry |
| `Registers.Register.SetRenderFunc` | sty/register.py:58-60 | the table gains or replaces one entry; styles and flags are unchanged |
| `Registers.Register.SetEightbitCall` | sty/register.py:62 | the 8-bit constructor is bound; nothing else changes |
| `Registers.Register.SetRgbCall` | sty/register.py:63 | the RGB constructor is bound; nothing else changes |
| `Registers.Register.SetStyle` | sty/register.py:27-37 | the name is bound to the style, replacing any earlier binding; table and flags are unchanged |
| `Registers.MoreKindsKeepDispatchable` | sty/register.py:58-60 | adding formatters keeps every style dispatchable |
| `Registers.BindingKeepsDispatchable` | sty/register.py:67-96 | binding a dispatchable style keeps every style dispatchable |
| `Registers.Register.Ef` | sty/register.py:22-40 | the effect register ends with `renderfuncs == EfRenderFuncs()` (only `Sgr`, register.py:25), binds neither dynamic constructor, ends with `styles == EfStyles()`, the table of register.py:27-40, and is valid |
| `Registers.Register.Fg` | sty/register.py:55-96 | the foreground register ends with `renderfuncs == FgRenderFuncs()` (`Sgr`, `Eightbit`, `Rgb` to the foreground formatters, register.py:58-60), binds both dynamic constructors, ends with `styles == FgStyles()`, the table of register.py:67-96, and is valid |
| `Registers.Register.Bg` | sty/register.py:111-152 | the background register ends with `renderfuncs == BgRenderFuncs()` (register.py:114-116), binds both dynamic constructors, ends with `styles == BgStyles()`, the table of register.py:123-152, and is valid |
| `Registers.Register.Underline` | sty/register.py:167-218 | the underline register ends with `renderfuncs == UnderlineRenderFuncs()` (`Sgr`, `SgrArgs`, `Eightbit`, `Rgb` to the underline formatters, register.py:170-173), binds both dynamic constructors, ends with `styles == UnderlineStyles()`, the table of register.py:178-218, and is valid |
| `Registers.Register.Rs` | sty/register.py:235-255 | the reset register ends with `renderfuncs == RsRenderFuncs()` (only `Sgr`, register.py:238), binds neither dynamic constructor, ends with `styles == RsStyles()`, the table of register.py:240-255, and is valid |
| `Registers.DefaultRegisters` | sty/register.py:258-262 | the five default registers are fresh, pairwise distinct objects; each holds its preset table and preset styles; `fg`, `bg` and `ul` bind both dynamic constructors while `ef` and `rs` bind neither; each is valid |
| `Registers.EfDispatch` | sty/register.py:25-40 | every effect style uses only `Sgr` |
| `Registers.FgDispatch` | sty/register.py:58-96 | every foreground style uses only `Sgr` and `Eightbit` |
| `Registers.BgDispatch` | sty/register.py:114-152 | every background style uses only `Sgr` and `Eightbit` |
| `Registers.UnderlineDispatch` | sty/register.py:170-218 | every underline style uses only `Sgr`, `SgrArgs` and `Eightbit` |
| `Registers.RsDispatch` | sty/register.py:238-255 | every reset style uses only `Sgr` |
| `PresetProperties.EffectKindsInUse` | sty/register.py:25-40 | the effect styles use `Sgr` and no other variant |
| `PresetProperties.ForegroundKindsInUse` | sty/register.py:58-96 | the foreground styles use `Sgr` and `Eightbit`; `Rgb` is registered but unused |
| `PresetProperties.BackgroundKindsInUse` | sty/register.py:114-152 | the background styles use `Sgr` and `Eightbit`; `Rgb` is registered but unused |
| `PresetProperties.UnderlineKindsInUse` | sty/register.py:170-218 | the underline styles use `Sgr`, `SgrArgs` and `Eightbit`, and not `Rgb` |
| `PresetProperties.ResetKindsInUse` | sty/register.py:238-255 | the reset styles use `Sgr` and no other variant |
| `PresetProperties.PerRegisterDispatch` | sty/register.py:25-238 | every preset sends `Sgr` to the one SGR formatter; foreground, background and underline send `Eightbit` and `Rgb` to three different formatters; underline dispatches `SgrArgs` and foreground and background do not |
| `PresetProperties.EffectAliases` | sty/register.py:27-33 | `b`=`bold`, `i`=`italic`, `u`=`underl` |
| `PresetProperties.ResetAliases` | sty/register.py:246-251 | `bold_dim`=`dim_bold`, `i`=`italic`, `u`=`underl` |
| `PresetProperties.UnderlineOnIsLine` | sty/register.py:178-180 | `on`=`line`, plain underline |
| `PresetProperties.UnderlineStylesExtendOn` | sty/register.py:181-184 | `double`, `curly`, `dotted`, `dashed` are SGR 4, the code of plain underline, with one sub-argument 2, 3, 4, 5 respectively |
| `PresetProperties.ColourResetsAgree` | sty/register.py:76-242 | `fg.rs` = `rs.fg` = SGR 39 and `bg.rs` = `rs.bg` = SGR 49 |
| `PresetProperties.UnderlineResetIsDefaultThenOff` | sty/register.py:179-198 | `ul.rs` is `ul.default` (SGR 59) followed by `ul.off` (SGR 24) |
| `PresetProperties.EffectResetsAgree` | sty/register.py:40-244 | `ef.rs` = `rs.ef` = SGR 22, 23, 24, 25, 27, 28, 29 in that order |
| `PresetProperties.EffectResetIsEachReset` | sty/register.py:244-255 | `rs.ef` is the single resets concatenated in declaration order |
| `PresetProperties.EffectCodes` | sty/register.py:28-37 | the effects with their own reset have codes 3, 4, 5, 7, 8, 9; bold is 1, dim 2 |
| `PresetProperties.SingleResetCodes` | sty/register.py:248-255 | their resets have codes 23, 24, 25, 27, 28, 29 |
| `PresetProperties.ResetIsEffectPlusTwenty` | sty/register.py:246-255 | each effect with its own reset is reset by its code plus 20; bold and dim share the single reset 22 |
| `PresetProperties.ForegroundClassicCodes` | sty/register.py:67-74 | classic foreground colours are SGR 30..37 in declaration order |
| `PresetProperties.ForegroundBrightCodes` | sty/register.py:79-86 | bright foreground colours are SGR 90..97 in declaration order |
| `PresetProperties.BackgroundClassicCodes` | sty/register.py:123-130 | classic background colours are SGR 40..47 in declaration order |
| `PresetProperties.BackgroundBrightCodes` | sty/register.py:135-142 | bright background colours are SGR 100..107 in declaration order |
| `PresetProperties.BackgroundIsForegroundPlusTen` | sty/register.py:67-142 | for every classic and bright colour the foreground code is in 30..37 or 90..97 and the background code is it plus 10 |
| `PresetProperties.ForegroundDarkPalette` | sty/register.py:89-96 | foreground dark colours and grey are 8-bit indices 0, 88, 22, 58, 18, 89, 23, 249 |
| `PresetProperties.BackgroundDarkPalette` | sty/register.py:145-152 | background dark colours and grey are the same indices |
| `PresetProperties.UnderlineDarkPalette` | sty/register.py:211-218 | underline dark colours and grey are the same indices |
| `PresetProperties.DarkPaletteShared` | sty/register.py:89-218 | dark colours and grey are one identical 8-bit entry within 0..255 in `fg`, `bg` and `ul` |
| `PresetProperties.UnderlineClassicPalette` | sty/register.py:188-195 | underline classic colours are 8-bit indices 0..7 in declaration order |
| `PresetProperties.UnderlineBrightPalette` | sty/register.py:201-208 | underline bright colours are 8-bit indices 8..15 in declaration order |
| `PresetProperties.UnderlineBasicPalette` | sty/register.py:188-208 | underline's sixteen basic and bright colours are 8-bit indices 0..15 in declaration order |
| `PresetProperties.ForegroundPaletteInRange` | sty/register.py:89-96 | every 8-bit index in a foreground style is within 0..255 |
| `PresetProperties.BackgroundPaletteInRange` | sty/register.py:145-152 | every 8-bit index in a background style is within 0..255 |
| `PresetProperties.UnderlinePaletteInRange` | sty/register.py:188-218 | every 8-bit index in an underline style is within 0..255 |

## Left out

- Rendering a style to text, combining styles, and the bytes each formatter
  writes. `sty/primitive.py` and `sty/renderfunc.py` are not part of this
  model. A style is a plain `seq<RenderType>`. A formatter is only a name in
  `RenderFunc`.
- The base register's own constructor, from `sty/primitive.py`, is not part
  of this model. Each preset constructor starts from an empty table, no
  named styles, and neither dynamic constructor bound.
- What `set_eightbit_call` and `set_rgb_call` build is not modelled. Only the
  fact that a constructor is bound is kept, as a boolean.
- Attribute-style lookup and string conversion of a style live in
  `sty/primitive.py`, which is not part of this model.
- Range checks are not modelled, and neither are the error kinds for invalid
  palette indices, invalid RGB components, unknown names or missing
  formatters. `sty/rendertype.py` raises none of them: `Eightbit` and `Rgb`
  store any integer as given, and the model does the same.
- Python's dispatch on class identity is modelled as a tag, `Kind`. Because
  the aliases are the same classes, they get the same tag.
- The module-level registers are shared global objects. `DefaultRegisters`
  returns five freshly built registers instead.
- Assigning a style goes through the base register's attribute handling in
  `sty/primitive.py`, which is not part of this model. So whether assigning a
  style its table cannot format is rejected is not modelled: `SetStyle` is a
  plain map update.
- SetRenderFunc, SetEightbitCall, SetRgbCall, SetStyle: their contracts give
  the whole new state but do not themselves state that `Valid()` is kept.
  That follows from the new state by `MoreKindsKeepDispatchable` (a larger
  table) and `BindingKeepsDispatchable` (a dispatchable style). It is kept out
  of the setters' contracts because every preset constructor calls them
  dozens of times, and the extra implications make those constructors too
  costly to verify.
