# SLADE composite textures, patch table, undo/redo and bitmap fonts in Dafny

This project models four parts of SLADE, the Doom-engine resource editor, and
proves properties of the model.

- **Composite textures** (`CTexture`, `CTPatch`, `CTPatchEx`). A texture is
  built from patches, each an image placed at an offset. A *regular* texture
  (TEXTURE1/TEXTURE2 lumps) holds basic patches: a name and two 16-bit
  offsets. An *extended* texture (ZDoom TEXTURES lumps) holds extended patches,
  which add flips, rotation, alpha, a draw style and a blend. The model covers:
  - patch edits: add, remove by index or by name, replace, duplicate, swap;
  - conversion between the two formats;
  - copying one texture into another;
  - the TEXTURES text a texture and a patch write;
  - parsing that text from a token stream;
  - that a patch's own text parses back to the patch;
  - the draw properties a patch style selects;
  - the order in which a patch's image is looked up.
- **Patch table** (`PatchTable`). This is the PNAMES list of patch names. The
  model covers:
  - lookups by index, by name and by entry;
  - add, remove and replace;
  - the binary PNAMES format (a 32-bit count followed by 8-byte names);
  - the per-patch lists of the textures that use each patch.
- **Undo/redo** (`UndoLevel`, `UndoManager`). An undo level holds steps: undo
  runs them last to first and redo runs them first to last. The manager keeps a
  list of levels, a current index, a reset point and the level being recorded.
- **Bitmap fonts** (`SFont`). The model covers:
  - the monochrome VGA loader, which draws 256 glyphs of 8 × h pixels into a
    256 × 256 image;
  - the width loop of `drawString`;
  - the loaders that are still stubs.

Modules:

| module | file | contents |
|---|---|---|
| `Opt` | option.dfy | `Option` |
| `Text` | text.dfy | ASCII case mapping, case-insensitive comparison, integer text |
| `Tokens` | tokens.dfy | the token stream and the `Tokenizer` cursor |
| `Patches` | patches.dfy | patch values, patch text, draw properties, image lookup |
| `PatchParsing` | patch_parse.dfy | `CTPatchEx::parse` |
| `Reparsing` | reparse.dfy | reading back the text `CTPatchEx::asText` writes |
| `Textures` | textures.dfy | the `CTexture` class, conversions, texture text and parsing |
| `PatchTables` | patch_table.dfy | the `PatchTable` class and the PNAMES codec |
| `UndoRedo` | undo_redo.dfy | undo levels and the `UndoManager` class |
| `Fonts` | font.dfy | the `SFont` class and the monochrome loader |

Patches are values, so they are a `datatype`. Textures, the patch table, the
undo manager, the font and the tokenizer change in place, so each is a
`class`. Their methods are proved against specification functions
(`TextureText`, `ParseTextureSpec`, `EncodePNAMES`, `DecodePNAMES`,
`UsageUpdated`, `UndoRuns`, `TotalWidth`, and so on). The properties are then
proved about those functions.

Where the code and its documentation disagree, the model follows the code:

- `PatchTable::patch(name)` compares names exactly, but `patchIndex(name)` and
  `patchEntry(name)` ignore case.
- `writePNAMES` writes names as stored. Only `loadPNAMES` upper-cases them.
- Usage lists keep duplicates, because each reference is appended. The lists
  are cleared only of the texture being updated. The usage list of the
  "INVALID_PATCH" sentinel also grows, once for every reference to a name the
  table lacks.
- An extended texture's text always has a `{ … }` block, even an empty one. An
  extended patch gets a block only when a property differs from its default.
- A PNAMES lump that is too short keeps the names read before the data ran
  out, and leaves the table muted.
- A patch whose block fails to parse does not make the texture parse fail.
- `convertRegular` multiplies scales other than 1 by 8. `convertExtended` does
  not divide them back.
- `asText` writes the keyword `Optional`. The parser recognises only
  `optional` spelled exactly in lower case, so the written keyword is read back
  as the texture's name (`OptionalKeywordIsExact`).
- An alpha above 1 is not a default, yet no `Alpha` line is written for it. The
  result is an empty property block (`OpaqueAboveOneGivesEmptyBlock`).
- A patch's colour is written only with a colour or tint blend, so a
  non-default colour without a blend does not survive `asText` and `parse`.
- A colour blend writes only `Blend "#rrggbb"`, and parsing that line stores
  alpha 255, so the alpha of a colour blend does not survive `asText` and
  `parse` either.

## Model

All source paths are under `src/`.

| member | source | states |
|---|---|---|
| Patches.Wrap16 | src/Graphics/CTexture/CTexture.cpp:236-238 | storing an int in an int16_t offset keeps values in range and otherwise wraps modulo 2^16 |
| Patches.IntToByte | src/Graphics/CTexture/CTexture.cpp:321 | storing an int in a colour component keeps 0..255 unchanged |
| Patches.Trunc | src/Graphics/CTexture/CTexture.cpp:318-328 | conversion of a double to an integer truncates toward zero, on both signs |
| Patches.NewExtended | src/Graphics/CTexture/CTexture.cpp:134-144 | a new extended patch has the given name, offsets and type, and every other property at its default |
| Patches.BasicExtendedRoundTrip | src/Graphics/CTexture/CTexture.cpp:149-165 | a basic patch made extended is of type Patch with default properties, and cutting it back gives the same basic patch |
| Patches.ExtendedBasicRoundTrip | src/Graphics/CTexture/CTexture.cpp:149-165 | an extended patch survives the trip through the basic form exactly when it is of type Patch with default properties |
| Patches.Renamed | src/Graphics/CTexture/CTexture.cpp:651-664 | renaming changes the name only; offsets, format and extended properties are kept |
| Patches.Moved | src/Graphics/CTexture/CTexture.cpp:686-688 | moving changes the offsets only, each a 16-bit wrapped sum |
| Patches.Candidates | src/Graphics/CTexture/CTexture.cpp:369-396 | the candidate property lines are in output order |
| Patches.KeepMembers | src/Graphics/CTexture/CTexture.cpp:369-396 | filtering keeps exactly the lines that hold for the patch |
| Patches.KeepSorted | src/Graphics/CTexture/CTexture.cpp:369-396 | filtering keeps the output order |
| Patches.PatchPropsSpec | src/Graphics/CTexture/CTexture.cpp:353-402 | asText writes FlipX, FlipY, UseOffsets, Rotate, Translation, Blend, Alpha and Style lines in that order, each exactly when its property is not at its default |
| Patches.QuietHasNoProps | src/Graphics/CTexture/CTexture.cpp:369-396 | a patch with every property at its default writes no property line |
| Patches.TextDefaultHasNoProps | src/Graphics/CTexture/CTexture.cpp:362-396 | the default test before the block implies no property line; failing it with alpha at most 1 and no translation blend implies at least one line |
| Patches.OpaqueAboveOneGivesEmptyBlock | src/Graphics/CTexture/CTexture.cpp:362-396 | an alpha of 2 fails the default test but writes no line, so the block is empty |
| Patches.StyleDrawProps | src/Graphics/CTexture/CTexture.cpp:1009-1036 | each style selects its blend operation; alpha is taken from the patch only for the translucent styles; source alpha only for the styles that use it; any other style draws normally |
| Patches.StyleIsCaseSensitive | src/Graphics/CTexture/CTexture.cpp:1009-1036 | style names are compared case-sensitively: "translucent" and "add" select normal drawing |
| Patches.FirstHit | src/Graphics/CTexture/CTexture.cpp:92-106 | the lookup yields nothing exactly when no namespace in the order has the name, and otherwise a hit from one of them |
| Patches.PatchEntryIsFirstHit | src/Graphics/CTexture/CTexture.cpp:200-225 | getPatchEntry returns the first hit in the patch's search order |
| Patches.KindDecidesPreference | src/Graphics/CTexture/CTexture.cpp:200-225 | when both namespaces have the name, a Patch-type patch takes the patches entry and a Graphic-type one the graphics entry |
| Patches.EarlierMatch | src/Graphics/CTexture/CTexture.cpp:1082-1099 | the texture found is the first one whose name matches the patch ignoring case, and it lies before the texture's own entry; nothing is found only when no such texture exists |
| Patches.FindEarlierTexture | src/Graphics/CTexture/CTexture.cpp:1082-1099 | the search loop finds the same texture as EarlierMatch |
| Patches.NoSelfReference | src/Graphics/CTexture/CTexture.cpp:1069-1122 | a texture taken from its own list comes before its own entry, differs from its name even ignoring case, and is the first entry matching the patch name |
| Patches.RegularUsesEntries | src/Graphics/CTexture/CTexture.cpp:1069-1122 | a regular texture, or a patch named like its own texture, draws only an entry and never a texture |
| PatchParsing.Quoted | src/Graphics/CTexture/CTexture.cpp:267-277 | a translation range is wrapped in double quotes exactly when it contains '=' |
| PatchParsing.ParseHeader | src/Graphics/CTexture/CTexture.cpp:232-238 | reading the name and offsets moves the cursor forward within the stream and yields an extended patch |
| PatchParsing.ParsePatchSpec | src/Graphics/CTexture/CTexture.cpp:230-348 | the parse moves the cursor forward within the stream and keeps the patch type it was called with; its round trip with asText is Reparsing.PatchTextReadsBack |
| PatchParsing.PropsLoop | src/Graphics/CTexture/CTexture.cpp:241-345 | the property loop moves forward within the stream and keeps the patch type |
| PatchParsing.PropLine | src/Graphics/CTexture/CTexture.cpp:246-343 | one loop pass moves forward within the stream and keeps the patch type |
| PatchParsing.Flags | src/Graphics/CTexture/CTexture.cpp:246-256 | the flag tests do not move the cursor and keep the patch type |
| PatchParsing.RotateStep | src/Graphics/CTexture/CTexture.cpp:258-260 | the Rotate test moves forward within the stream and keeps the patch type |
| PatchParsing.TranslationStep | src/Graphics/CTexture/CTexture.cpp:262-282 | the Translation test moves forward within the stream and keeps the patch type |
| PatchParsing.TranslationTail | src/Graphics/CTexture/CTexture.cpp:271-278 | collecting further comma-separated ranges moves forward within the stream |
| PatchParsing.BlendStep | src/Graphics/CTexture/CTexture.cpp:284-332 | the Blend test moves forward within the stream and keeps the patch type |
| PatchParsing.BlendLineBlends | src/Graphics/CTexture/CTexture.cpp:284-332 | a Blend line that parses gives either a colour blend with alpha 255 or a tint blend |
| PatchParsing.AlphaStep | src/Graphics/CTexture/CTexture.cpp:334-336 | the Alpha test moves forward within the stream and keeps the patch type |
| PatchParsing.StyleStep | src/Graphics/CTexture/CTexture.cpp:338-340 | the Style test moves forward within the stream and keeps the patch type |
| PatchParsing.ParsePatch | src/Graphics/CTexture/CTexture.cpp:230-348 | CTPatchEx::parse on a tokenizer gives the outcome, final cursor and patch of ParsePatchSpec |
| PatchParsing.ReadHeader | src/Graphics/CTexture/CTexture.cpp:232-238 | the header reads agree with ParseHeader |
| PatchParsing.ParseProperty | src/Graphics/CTexture/CTexture.cpp:246-343 | one pass of the loop body agrees with PropLine |
| PatchParsing.ReadRotate | src/Graphics/CTexture/CTexture.cpp:258-260 | the Rotate branch agrees with RotateStep |
| PatchParsing.ReadTranslation | src/Graphics/CTexture/CTexture.cpp:262-282 | the Translation branch agrees with TranslationStep |
| PatchParsing.ReadBlend | src/Graphics/CTexture/CTexture.cpp:284-332 | the Blend branch agrees with BlendStep, failure included |
| PatchParsing.ReadAlphaStyle | src/Graphics/CTexture/CTexture.cpp:334-340 | the Alpha and Style branches agree with AlphaStep and StyleStep |
| PatchParsing.PropsLoopStopsAtBrace | src/Graphics/CTexture/CTexture.cpp:241-345 | a successful property loop stops on "}" or at the end of input |
| PatchParsing.PropsLoopFailureIsBlend | src/Graphics/CTexture/CTexture.cpp:284-345 | the loop fails only in the Blend branch, leaving a colour blend |
| PatchParsing.NoBlockAlwaysParses | src/Graphics/CTexture/CTexture.cpp:230-348 | a patch without a "{" block parses successfully and stops after its offsets |
| PatchParsing.BlendWithoutAlphaFails | src/Graphics/CTexture/CTexture.cpp:313-326 | "Blend r, g, b" without a fourth value fails on the blue component, which is already stored |
| PatchParsing.UnknownPropertyIsSkipped | src/Graphics/CTexture/CTexture.cpp:246-343 | a token naming no property is skipped and changes nothing |
| Reparsing.PropWords | src/Graphics/CTexture/CTexture.cpp:353-402 | every property line asText writes starts with its own keyword |
| Reparsing.Applied | src/Graphics/CTexture/CTexture.cpp:246-340 | the meaning of one property line: it sets its own property and keeps the patch type |
| Reparsing.NoTranslationWritten | src/Graphics/CTexture/CTexture.cpp:377-382 | a patch without a translation blend writes no Translation line |
| Reparsing.KeywordsDistinct | src/Graphics/CTexture/CTexture.cpp:246-340 | no two property keywords are equal ignoring case, so each line passes only its own test |
| Reparsing.IntTextNotKeyword | src/Graphics/CTexture/CTexture.cpp:258-260 | a printed integer never passes a property test |
| Reparsing.StepsSkip | src/Graphics/CTexture/CTexture.cpp:258-340 | each property test leaves the cursor and patch unchanged on a token that is not its keyword |
| Reparsing.FlagLineReads | src/Graphics/CTexture/CTexture.cpp:246-256 | a FlipX, FlipY or UseOffsets line sets that flag and leaves the cursor on its keyword |
| Reparsing.RotateLineReads | src/Graphics/CTexture/CTexture.cpp:258-260 | a written Rotate line sets the rotation back to the written value |
| Reparsing.ColourBlendStep | src/Graphics/CTexture/CTexture.cpp:284-299 | a Blend line with only a colour sets a colour blend of that colour with alpha 255 |
| Reparsing.TintBlendStep | src/Graphics/CTexture/CTexture.cpp:300-312 | a Blend line with a colour and a factor sets a tint blend of that colour, its alpha the factor times 255 |
| Reparsing.BeforeBlend | src/Graphics/CTexture/CTexture.cpp:246-283 | the tests before Blend pass over a Blend line without change |
| Reparsing.AfterBlend | src/Graphics/CTexture/CTexture.cpp:334-340 | when the Blend test ends on a value that is not a keyword, the Alpha and Style tests leave it and the pass ends there |
| Reparsing.ColourLineReads | src/Graphics/CTexture/CTexture.cpp:246-340 | one pass over a colour Blend line applies exactly that line and stops on its colour |
| Reparsing.TintLineReads | src/Graphics/CTexture/CTexture.cpp:246-340 | one pass over a tint Blend line applies exactly that line and stops on its factor |
| Reparsing.BlendLineReads | src/Graphics/CTexture/CTexture.cpp:284-332 | one pass over a written Blend line, with or without a factor, applies exactly that line and stops on its last value |
| Reparsing.AlphaLineReads | src/Graphics/CTexture/CTexture.cpp:334-336 | one pass over a written Alpha line sets the alpha back to the written value |
| Reparsing.StyleLineReads | src/Graphics/CTexture/CTexture.cpp:338-340 | one pass over a Style line sets the style to the written name |
| Reparsing.PropLineReadsLine | src/Graphics/CTexture/CTexture.cpp:246-343 | one pass of the property tests over the words of any written line applies exactly that line and stops on its last word |
| Reparsing.LoopTurn | src/Graphics/CTexture/CTexture.cpp:244-343 | a successful pass followed by the advance continues the loop on the next token |
| Reparsing.LoopAtBrace | src/Graphics/CTexture/CTexture.cpp:244 | the loop stops, successfully, on "}" |
| Reparsing.LineTurn | src/Graphics/CTexture/CTexture.cpp:244-343 | the loop over a written line continues on the next line with that line applied |
| Reparsing.PropsLoopReadsLines | src/Graphics/CTexture/CTexture.cpp:244-345 | the loop over written lines followed by "}" applies every line in order and stops on the brace |
| Reparsing.WordsAreLines | src/Graphics/CTexture/CTexture.cpp:369-399 | the words of the written lines split into one line after another, each starting on a keyword and followed by no comma, up to the "}" |
| Reparsing.RebuildFlags | src/Graphics/CTexture/CTexture.cpp:369-376 | the FlipX, FlipY, UseOffsets and Rotate lines, applied to a fresh patch, set exactly the flags and rotation of the written patch |
| Reparsing.RebuildRest | src/Graphics/CTexture/CTexture.cpp:377-396 | the Translation, Blend, Alpha and Style lines then finish the patch |
| Reparsing.WrittenLinesRebuild | src/Graphics/CTexture/CTexture.cpp:369-396 | applying the lines asText writes, in order, to a fresh patch with the same name, offsets and type rebuilds the patch |
| Reparsing.HeaderReads | src/Graphics/CTexture/CTexture.cpp:230-238 | the type, name and offsets asText writes read back as a fresh extended patch with that name, those offsets and that type |
| Reparsing.BlockWords | src/Graphics/CTexture/CTexture.cpp:353-402 | a patch that is not at its defaults writes its header, "{", its property lines and "}" |
| Reparsing.BlockReads | src/Graphics/CTexture/CTexture.cpp:241-345 | the block of a readable patch, read into the fresh patch, gives the patch back and stops on the closing brace |
| Reparsing.PatchTextReadsBack | src/Graphics/CTexture/CTexture.cpp:230-402 | parsing the tokens of the text asText writes for a readable patch succeeds, gives the same patch and stops on the last token of the text |
| Textures.InsertAt | src/Graphics/CTexture/CTexture.cpp:571-593 | addPatch inserts at an index inside the list, and otherwise appends; all other patches keep their order |
| Textures.RemoveAt | src/Graphics/CTexture/CTexture.cpp:599-616 | removing by index drops exactly that patch and keeps the order of the others |
| Textures.RemoveUndoesInsert | src/Graphics/CTexture/CTexture.cpp:571-616 | removing the patch just added restores the list |
| Textures.Swapped | src/Graphics/CTexture/CTexture.cpp:703-718 | swapping exchanges the two patches and leaves every other position unchanged |
| Textures.SwapInvolution | src/Graphics/CTexture/CTexture.cpp:703-718 | swapping twice restores the list, and a swap is a permutation |
| Textures.WithoutNameMembers | src/Graphics/CTexture/CTexture.cpp:622-644 | removal by name keeps exactly the patches with another name |
| Textures.WithoutNameLength | src/Graphics/CTexture/CTexture.cpp:622-644 | removal by name removes something exactly when a patch has that name |
| Textures.WithoutNameIdempotent | src/Graphics/CTexture/CTexture.cpp:622-644 | removing by name a second time removes nothing more |
| Textures.RemoveNamed | src/Graphics/CTexture/CTexture.cpp:622-644 | the erase loop leaves WithoutName of the list and reports whether any patch had the name |
| Textures.Duplicated | src/Graphics/CTexture/CTexture.cpp:671-697 | duplication inserts after the patch a copy moved by the given offsets |
| Textures.RemoveUndoesDuplicate | src/Graphics/CTexture/CTexture.cpp:671-697 | removing the duplicate restores the list |
| Textures.Cleared | src/Graphics/CTexture/CTexture.cpp:544-565 | clear empties the patches and resets the name, define flag and properties, keeping the format and type |
| Textures.ExtendedScale | src/Graphics/CTexture/CTexture.cpp:891-895 | a zero scale becomes 1 and any other scale is kept, so the result is never 0 |
| Textures.RegularScale | src/Graphics/CTexture/CTexture.cpp:922-929 | a scale of 1 becomes 0 and any other is multiplied by 8, so the result is 0 exactly when the scale was 1 or 0 |
| Textures.ToExtended | src/Graphics/CTexture/CTexture.cpp:149-165 | the extended version of a patch keeps the name and offsets, is of type Patch and has default properties |
| Textures.ExtendedOf | src/Graphics/CTexture/CTexture.cpp:881-909 | convertExtended clears the define flag and keeps the name, type name and every property but the scales; an extended texture keeps everything else; a regular one gets its scales from ExtendedScale and every patch replaced by its extended version, of type Patch with default properties |
| Textures.RegularOf | src/Graphics/CTexture/CTexture.cpp:914-943 | convertRegular cuts every patch to its name and offsets and keeps the name, type name and every property but the scales; a regular texture is unchanged; an extended one is no longer defined and gets its scales from RegularScale |
| Textures.ConversionsIdempotent | src/Graphics/CTexture/CTexture.cpp:881-943 | converting twice in the same direction changes nothing more |
| Textures.ExtendedRoundTrip | src/Graphics/CTexture/CTexture.cpp:881-943 | extended → regular → extended restores a texture exactly when its patches are default-type Patch ones and its scales are 1 |
| Textures.RegularRoundTrip | src/Graphics/CTexture/CTexture.cpp:881-943 | regular → extended → regular restores a texture exactly when both scales are 0 |
| Textures.ExtendPatches | src/Graphics/CTexture/CTexture.cpp:897-902 | the patch loop of convertExtended makes every patch extended, in place |
| Textures.BasicPatches | src/Graphics/CTexture/CTexture.cpp:931-936 | the patch loop of convertRegular cuts every patch to name and offsets, in place |
| Textures.CopiedPatch | src/Graphics/CTexture/CTexture.cpp:498-512 | a copied patch takes the target format, keeps name and offsets, and is identical between extended textures |
| Textures.CopyOf | src/Graphics/CTexture/CTexture.cpp:452-513 | the copy takes the source's name, type name and properties, with each scale passed through CopiedScale; its format is the target's when the type is kept and the source's otherwise; it holds CopiedPatch of every source patch, in order; it is defined exactly when the type is not kept, the source is defined, and the copy is extended or has no patches |
| Textures.CopyPatches | src/Graphics/CTexture/CTexture.cpp:498-512 | the copy loop appends CopiedPatch of every source patch, in order |
| Textures.CopyIsFaithful | src/Graphics/CTexture/CTexture.cpp:452-513 | a copy that does not keep the type reproduces the source when its scales need no adjustment |
| Textures.CopyKeepingRegular | src/Graphics/CTexture/CTexture.cpp:482-512 | copying an extended texture into a regular one that keeps its type re-encodes scales of 1 as 0 and cuts the patches |
| Textures.TexturePropsSpec | src/Graphics/CTexture/CTexture.cpp:837-876 | asText writes XScale, YScale, Offset, WorldPanning, NoDecals and NullTexture lines, each exactly when its property is not at its default |
| Textures.InitialPropertiesShowNothing | src/Graphics/CTexture/CTexture.cpp:415-436 | a new texture writes no property line |
| Textures.TextureText | src/Graphics/CTexture/CTexture.cpp:837-876 | a regular texture writes nothing and a defined one a single define line |
| Textures.EmptyTextureText | src/Graphics/CTexture/CTexture.cpp:837-876 | a new, empty extended texture writes its header and an empty block |
| Textures.AppendPatchesText | src/Graphics/CTexture/CTexture.cpp:868-870 | the asText patch loop appends the text of every patch, in order |
| Textures.TexHeader | src/Graphics/CTexture/CTexture.cpp:725-737 | parsing makes the texture extended and not defined, keeps its patches, and sets optional exactly when "optional" follows the type |
| Textures.OptionalKeywordIsExact | src/Graphics/CTexture/CTexture.cpp:725-737 | the "Optional" that asText writes is not recognised and is taken as the texture's name |
| Textures.ParseTextureSpec | src/Graphics/CTexture/CTexture.cpp:723-802 | the parse moves the cursor forward within the stream |
| Textures.TexProp | src/Graphics/CTexture/CTexture.cpp:752-794 | one property changes only the properties and appends only extended patches; offsets that fit in 16 bits still fit after it, an Offset line wrapping its values |
| Textures.TexFlagProp | src/Graphics/CTexture/CTexture.cpp:768-778 | the flag properties change only the properties |
| Textures.TexPatchProp | src/Graphics/CTexture/CTexture.cpp:780-794 | a Patch or Graphic line appends one extended patch; any other line changes nothing |
| Textures.TexLoopFailsOnlyAtEnd | src/Graphics/CTexture/CTexture.cpp:740-799 | the texture parse fails only by running out of input |
| Textures.MissingBraceFails | src/Graphics/CTexture/CTexture.cpp:746-750 | a block with no closing "}" makes the parse fail |
| Textures.TexLoopKeepsPatches | src/Graphics/CTexture/CTexture.cpp:740-799 | parsing appends extended patches and never changes those already present |
| Textures.ParsedIsWellFormed | src/Graphics/CTexture/CTexture.cpp:723-802 | a texture parsed into an empty or extended texture holds only extended patches |
| Textures.CTexture.constructor | src/Graphics/CTexture/CTexture.cpp:415-436 | a new texture is unnamed, of type "Texture", not defined, with initial properties and no patches |
| Textures.CTexture.GetPatch | src/Graphics/CTexture/CTexture.cpp:518-526 | the patch at an index, or nothing past the end |
| Textures.CTexture.Clear | src/Graphics/CTexture/CTexture.cpp:544-565 | the texture's new state is Cleared of its old one |
| Textures.CTexture.NewPatch | src/Graphics/CTexture/CTexture.cpp:574-578 | addPatch creates an extended patch of type Patch with default properties for an extended texture, and otherwise a basic patch |
| Textures.CTexture.AddPatch | src/Graphics/CTexture/CTexture.cpp:571-593 | the patch is placed by InsertAt and the define flag cleared |
| Textures.CTexture.RemovePatchAt | src/Graphics/CTexture/CTexture.cpp:599-616 | succeeds exactly when the index is in range, then removes that patch; otherwise nothing changes |
| Textures.CTexture.RemovePatchNamed | src/Graphics/CTexture/CTexture.cpp:622-644 | removes every patch named exactly so, and reports whether there was one |
| Textures.CTexture.ReplacePatch | src/Graphics/CTexture/CTexture.cpp:651-664 | succeeds exactly when the index is in range, then renames that patch; otherwise nothing changes |
| Textures.CTexture.DuplicatePatch | src/Graphics/CTexture/CTexture.cpp:671-697 | succeeds exactly when the index is in range, then inserts the moved copy after it |
| Textures.CTexture.SwapPatches | src/Graphics/CTexture/CTexture.cpp:703-718 | succeeds exactly when both indices are in range, then swaps them; otherwise nothing changes |
| Textures.CTexture.CopyTexture | src/Graphics/CTexture/CTexture.cpp:452-513 | no source leaves the texture unchanged; otherwise its state becomes CopyOf the source, including a copy from itself, which reads the already cleared state |
| Textures.CTexture.CopyFrom | src/Graphics/CTexture/CTexture.cpp:461-512 | after clear, the copy of the fields and patches gives CopyOf |
| Textures.CTexture.ConvertExtended | src/Graphics/CTexture/CTexture.cpp:881-909 | always succeeds and leaves ExtendedOf the old state |
| Textures.CTexture.ConvertRegular | src/Graphics/CTexture/CTexture.cpp:914-943 | always succeeds and leaves RegularOf the old state |
| Textures.CTexture.AsText | src/Graphics/CTexture/CTexture.cpp:837-876 | returns TextureText of the texture |
| Textures.CTexture.Parse | src/Graphics/CTexture/CTexture.cpp:723-802 | the outcome, final cursor and texture agree with ParseTextureSpec |
| Textures.CTexture.ReadHeader | src/Graphics/CTexture/CTexture.cpp:725-737 | the header reads agree with TexHeader |
| Textures.CTexture.ParseProperty | src/Graphics/CTexture/CTexture.cpp:752-794 | one loop pass agrees with TexProp |
| Textures.CTexture.ParseFlagProperty | src/Graphics/CTexture/CTexture.cpp:768-778 | the flag branches agree with TexFlagProp |
| Textures.CTexture.ParsePatchProperty | src/Graphics/CTexture/CTexture.cpp:780-794 | the Patch and Graphic branches agree with TexPatchProp |
| PatchTables.FirstMatchSpec | src/Graphics/CTexture/PatchTable.cpp:140-151 | the index is the first patch whose name matches, or -1 exactly when none matches |
| PatchTables.NoCaseFindsNoLater | src/Graphics/CTexture/PatchTable.cpp:76-151 | a case-insensitive search finds a patch no later than an exact search |
| PatchTables.Find | src/Graphics/CTexture/PatchTable.cpp:140-151 | the search loop returns FirstMatch |
| PatchTables.FirstWithEntrySpec | src/Graphics/CTexture/PatchTable.cpp:157-168 | the index is the first patch whose patches-namespace entry is the given one, or -1 when there is none |
| PatchTables.FindEntry | src/Graphics/CTexture/PatchTable.cpp:157-168 | the search loop returns FirstWithEntry |
| PatchTables.LE32RoundTrip | src/Graphics/CTexture/PatchTable.cpp:257-311 | the 32-bit little-endian count written is the count read |
| PatchTables.UntilNulSpec | src/Graphics/CTexture/PatchTable.cpp:269-280 | a name ends at the first NUL byte, or after all 8 bytes |
| PatchTables.Record | src/Graphics/CTexture/PatchTable.cpp:314-320 | a name is written as exactly 8 bytes: its characters, then NUL bytes up to 8 |
| PatchTables.RecordsSpec | src/Graphics/CTexture/PatchTable.cpp:314-320 | the i-th 8 bytes of the written records are the record of the i-th name |
| PatchTables.EncodeLayout | src/Graphics/CTexture/PatchTable.cpp:297-329 | a PNAMES lump is a 4-byte count equal to the number of names, followed by 8 bytes per name |
| PatchTables.DecodeRecordsOutcome | src/Graphics/CTexture/PatchTable.cpp:267-281 | reading succeeds exactly when the data holds all records; on failure every complete record before the end has been read |
| PatchTables.DecodeOutcome | src/Graphics/CTexture/PatchTable.cpp:241-291 | a lump shorter than 4 bytes fails with no names; otherwise the count decides how many records are read |
| PatchTables.DecodedAreUpper | src/Graphics/CTexture/PatchTable.cpp:280 | every name read is upper case |
| PatchTables.RecordRoundTrip | src/Graphics/CTexture/PatchTable.cpp:269-320 | reading back a written name gives it in upper case |
| PatchTables.DecodeRecordsOfRecords | src/Graphics/CTexture/PatchTable.cpp:267-320 | reading back written records gives every name in upper case |
| PatchTables.PNAMESRoundTrip | src/Graphics/CTexture/PatchTable.cpp:241-329 | reading a written PNAMES lump succeeds and gives the table's names in upper case |
| PatchTables.ReadRecords | src/Graphics/CTexture/PatchTable.cpp:267-281 | the record loop agrees with DecodeRecords |
| PatchTables.RecordsAppend | src/Graphics/CTexture/PatchTable.cpp:314-320 | writing one more name appends its record |
| PatchTables.WriteRecords | src/Graphics/CTexture/PatchTable.cpp:297-329 | the write loop produces EncodePNAMES |
| PatchTables.WithoutMembers | src/Graphics/CTexture/PatchTable.cpp:346-358 | removing a texture's usage keeps exactly the other textures |
| PatchTables.WithoutAppend | src/Graphics/CTexture/PatchTable.cpp:346-358 | removing usage distributes over concatenation |
| PatchTables.WithoutIdempotent | src/Graphics/CTexture/PatchTable.cpp:346-358 | removing usage twice removes nothing more |
| PatchTables.WithoutRepeat | src/Graphics/CTexture/PatchTable.cpp:346-358 | usage entries of a texture are all removed by removing that texture |
| PatchTables.Stripped | src/Graphics/CTexture/PatchTable.cpp:349-350 | stripping a texture keeps one record per patch with the same name, and removes that texture from its usage list |
| PatchTables.StrippedRemovesTexture | src/Graphics/CTexture/PatchTable.cpp:349-350 | after stripping, a patch lists exactly the textures it listed before other than the stripped one |
| PatchTables.Credited | src/Graphics/CTexture/PatchTable.cpp:352-357 | crediting a reference appends the texture to the usage of the first patch named exactly so, changing no other patch and no name; with no match it appends the texture to the sentinel usage only |
| PatchTables.RefsTo | src/Graphics/CTexture/PatchTable.cpp:352-357 | the number of references credited to a patch is at most the number of references |
| PatchTables.CreditAllShape | src/Graphics/CTexture/PatchTable.cpp:352-357 | crediting appends the texture once per reference to each patch and to the sentinel for unknown names; names are unchanged |
| PatchTables.UsageAfterUpdate | src/Graphics/CTexture/PatchTable.cpp:346-358 | after an update each patch lists its other textures followed by this texture once per reference to it |
| PatchTables.UpdateTwice | src/Graphics/CTexture/PatchTable.cpp:346-358 | updating the same texture twice leaves the patches' usage as after once |
| PatchTables.StripUsage | src/Graphics/CTexture/PatchTable.cpp:349-350 | the strip loop gives Stripped |
| PatchTables.CreditRefs | src/Graphics/CTexture/PatchTable.cpp:352-357 | the credit loop gives CreditAll |
| PatchTables.PatchTable.constructor | src/Graphics/CTexture/PatchTable.cpp:49-53 | a new table is empty, with no sentinel usage, and not muted |
| PatchTables.PatchTable.PatchAt | src/Graphics/CTexture/PatchTable.cpp:63-71 | the patch at an index, or the INVALID_PATCH sentinel past the end |
| PatchTables.PatchTable.PatchName | src/Graphics/CTexture/PatchTable.cpp:92-100 | the name at an index, or "" past the end |
| PatchTables.PatchTable.PatchNamed | src/Graphics/CTexture/PatchTable.cpp:76-86 | the first patch named exactly so, or the sentinel |
| PatchTables.PatchTable.PatchIndex | src/Graphics/CTexture/PatchTable.cpp:140-151 | the first index whose name matches ignoring case, or -1 |
| PatchTables.PatchTable.PatchIndexOfEntry | src/Graphics/CTexture/PatchTable.cpp:157-168 | the first index whose entry is the given one, or -1 |
| PatchTables.PatchTable.PatchEntryAt | src/Graphics/CTexture/PatchTable.cpp:106-118 | nothing past the end; otherwise the first hit in the patches, then graphics, namespace |
| PatchTables.PatchTable.PatchEntryNamed | src/Graphics/CTexture/PatchTable.cpp:124-135 | the entry of the first patch matching ignoring case, or nothing |
| PatchTables.PatchTable.AddPatch | src/Graphics/CTexture/PatchTable.cpp:213-236 | adds an unused patch at the end exactly when duplicates are allowed or the name is new; otherwise nothing changes |
| PatchTables.PatchTable.RemovePatch | src/Graphics/CTexture/PatchTable.cpp:174-187 | succeeds exactly when the index is in range, then removes that patch |
| PatchTables.PatchTable.ReplacePatch | src/Graphics/CTexture/PatchTable.cpp:195-208 | succeeds exactly when the index is in range, then renames that patch, keeping its usage |
| PatchTables.PatchTable.LoadPNAMES | src/Graphics/CTexture/PatchTable.cpp:241-291 | no entry fails and changes nothing; otherwise the table holds the decoded names with no usage, and is muted exactly when decoding failed |
| PatchTables.PatchTable.WritePNAMES | src/Graphics/CTexture/PatchTable.cpp:297-329 | no entry fails; otherwise the entry's data is EncodePNAMES of the table's names |
| PatchTables.PatchTable.ClearPatchUsage | src/Graphics/CTexture/PatchTable.cpp:334-341 | every patch keeps its name and loses its usage |
| PatchTables.PatchTable.UpdatePatchUsage | src/Graphics/CTexture/PatchTable.cpp:346-358 | the table's usage becomes UsageUpdated for the texture's name and patches |
| UndoRedo.UndoRunsAt | src/General/UndoRedo.cpp:87-98 | an undo runs every step once, the k-th run being step n-1-k |
| UndoRedo.RedoRunsAt | src/General/UndoRedo.cpp:103-114 | a redo runs every step once, the k-th run being step k |
| UndoRedo.UndoRunsAppend | src/General/UndoRedo.cpp:87-98 | undoing a concatenation undoes the later part first |
| UndoRedo.RedoRunsAppend | src/General/UndoRedo.cpp:103-114 | redoing a concatenation redoes the earlier part first |
| UndoRedo.DoUndo | src/General/UndoRedo.cpp:87-98 | runs UndoRuns of the level and succeeds exactly when every step's undo succeeds |
| UndoRedo.DoRedo | src/General/UndoRedo.cpp:103-114 | runs RedoRuns of the level and succeeds exactly when every step's redo succeeds |
| UndoRedo.MergedUndo | src/General/UndoRedo.cpp:135-143 | undoing a merged level undoes the newest source level first |
| UndoRedo.MergedRedo | src/General/UndoRedo.cpp:135-143 | redoing a merged level redoes the oldest source level first |
| UndoRedo.EmptiedHoldsNoSteps | src/General/UndoRedo.cpp:135-143 | after a merge the source levels hold no step |
| UndoRedo.CreateMerged | src/General/UndoRedo.cpp:135-143 | the merged level gets every step of the sources, in order, and the sources are emptied |
| UndoRedo.Committed | src/General/UndoRedo.cpp:199-232 | committing keeps the levels up to the current one and appends the new level after them |
| UndoRedo.UndoManager.constructor | src/General/UndoRedo.cpp:156-164 | a new manager has no levels, index and reset point -1, and is not recording |
| UndoRedo.UndoManager.EndRecord | src/General/UndoRedo.cpp:199-232 | a successful recording drops the redo tail and becomes the last and current level; a failed one is discarded; without a recording nothing changes |
| UndoRedo.UndoManager.BeginRecord | src/General/UndoRedo.cpp:178-194 | commits any level being recorded and starts a new empty one, unless an undo is running |
| UndoRedo.UndoManager.RecordUndoStep | src/General/UndoRedo.cpp:246-261 | appends the step to the recording level and reports the step's own result; without a step or a recording it fails and changes nothing |
| UndoRedo.UndoManager.Undo | src/General/UndoRedo.cpp:266-289 | undoes the current level and moves the index back by one, returning its name; while recording or with nothing to undo it returns "" and changes nothing |
| UndoRedo.UndoManager.Redo | src/General/UndoRedo.cpp:294-316 | moves the index forward by one and redoes that level, returning its name; while recording or with nothing to redo it returns "" and changes nothing |
| UndoRedo.UndoManager.UndoThenRedo | src/General/UndoRedo.cpp:266-316 | an undo followed by a redo returns to the same level and runs its steps backward then forward |
| UndoRedo.UndoManager.ClearToResetPoint | src/General/UndoRedo.cpp:330-340 | when the index is above the reset point, pops (index − reset point) levels from the back and sets the index to the reset point; with no redo tail that keeps exactly the levels up to the reset point; nothing changes when the index is not above it |
| UndoRedo.UndoManager.Clear | src/General/UndoRedo.cpp:345-356 | forgets every level and any recording |
| UndoRedo.UndoManager.CreateMergedLevel | src/General/UndoRedo.cpp:361-377 | with source levels present, appends one level holding all their steps and makes it current; otherwise fails and changes nothing |
| Fonts.CellX | src/Graphics/Font/SFont.cpp:170-176 | the cell of every glyph starts within the image width |
| Fonts.CellY | src/Graphics/Font/SFont.cpp:170-176 | the cell of every glyph, at most 32 rows high, lies within the image height |
| Fonts.RowByte | src/Graphics/Font/SFont.cpp:158-168 | the byte of every row of every glyph lies inside the data |
| Fonts.CellFits | src/Graphics/Font/SFont.cpp:149-179 | the 256 cells fit the 256 × 256 image and their bytes fit the data |
| Fonts.NextCell | src/Graphics/Font/SFont.cpp:170-176 | the next cell is 8 pixels to the right, or at the start of the next row of cells; the data index moves on by one glyph |
| Fonts.CellsDisjoint | src/Graphics/Font/SFont.cpp:149-179 | an earlier glyph's pixels lie outside a later glyph's cell |
| Fonts.LowBitsAreRemainder | src/Graphics/Font/SFont.cpp:162-164 | the bits tested as (b >> k) & 1 for k below n add up to b modulo 2^n |
| Fonts.EightBitsRebuildByte | src/Graphics/Font/SFont.cpp:162-164 | the eight bits a glyph row tests, bit 7 down to bit 0, add up to the whole row byte |
| Fonts.DrawRow | src/Graphics/Font/SFont.cpp:160-166 | writes the 8 pixels of one glyph row, white where the bit is set, and no other pixel |
| Fonts.DrawGlyph | src/Graphics/Font/SFont.cpp:158-168 | writes every pixel of the glyph's cell and nothing outside it, and moves the data index on by one glyph |
| Fonts.DrawGlyphs | src/Graphics/Font/SFont.cpp:149-179 | every one of the 256 characters gets its cell, width 8 and height h, and its glyph is drawn in the image |
| Fonts.SFont.constructor | src/Graphics/Font/SFont.cpp:83-88 | a new font has no characters |
| Fonts.SFont.LoadFontM | src/Graphics/Font/SFont.cpp:122-185 | succeeds exactly when the size is a non-zero multiple of 256; then line height is h + 1, spacing 1, and all 256 glyphs are drawn; otherwise nothing changes |
| Fonts.SFont.LoadFont0 | src/Graphics/Font/SFont.cpp:98-101 | always fails |
| Fonts.SFont.LoadFont1 | src/Graphics/Font/SFont.cpp:106-109 | always fails |
| Fonts.SFont.LoadFont2 | src/Graphics/Font/SFont.cpp:114-117 | always fails |
| Fonts.SFont.LoadBMF | src/Graphics/Font/SFont.cpp:190-193 | always fails |
| Fonts.SFont.StringWidth | src/Graphics/Font/SFont.cpp:244-256 | the width loop returns TotalWidth: each character adds its glyph width plus spacing, or only spacing when it has no glyph |
| Fonts.SFont.UniformWidth | src/Graphics/Font/SFont.cpp:244-256 | when every glyph has width w, a string is (w + spacing) times its length wide |
| Fonts.LoadedStringWidth | src/Graphics/Font/SFont.cpp:122-256 | after a successful monochrome load every string is 9 pixels per character wide |

## Left out

- The tokenizer (Tokenizer.cpp) is not part of this model. Its behaviour is
  assumed: `check`, `checkNext` and `advIfNext` compare exactly, `checkNC`
  ignores ASCII case, the cursor stops at the end, and an empty token is read
  past the end.
- Colour-string parsing (wxColour), `printf` formatting of floats and colours,
  and translation parsing and text are foreign. They are function parameters
  (`colourOf`, `Format`).
- Drawing: `toImage` blending, and the font's OpenGL drawing and texture
  upload. `StyleDrawProps` gives only the draw properties `toImage` would use.
- Announcements and observer notifications.
- `CTexture::parseDefine` and the texture's `getIndex`.
- The resource manager and archive searches are a `find` function parameter.
- Memory management, and the links from textures and patches to their parents.
- PatchTable.h is not part of this model. `removeTextureUsage` is taken to
  remove every occurrence of the texture's name from a usage list.
- Characters are read from and written to PNAMES bytes as code points 0..255.
  Locale conversion is not modelled.
- PatchTables.PatchTable.WritePNAMES: requires names of at most 8 characters
  (the source copies longer names past its 8-byte buffer) and fewer than 2^31
  patches (the count is an int32).
- PatchTables.PatchTable.LoadPNAMES: the records are decoded first and then
  stored. The source calls `addPatch` for each one while muted; duplicates are
  allowed, so the final state is the same.
- Loops that the source runs over its fields are proved as helper methods over
  local sequences (for example `ReadRecords`, `ExtendPatches`, `RemoveNamed`).
  The class method then stores the result.
- Textures: the scalar properties are grouped in one `Properties` value rather
  than separate fields.
- UndoRedo: the timestamps of levels, the writing of levels to files, and the
  global undo manager of the map editor.
- Text.Upper, Text.EqualsNoCase: map case for ASCII letters only. The source
  upper-cases names with `wxString::Upper` and compares with `S_CMPNOCASE` and
  `CmpNoCase`, which follow the locale's case mapping. The model leaves every
  other character unchanged.
- Patches.NoSelfReference: covers only a texture taken from the owning list.
  When that list has no earlier match, `loadPatchImage` asks the resource
  manager for a texture of the patch's name (CTexture.cpp:1101-1105). The model
  reduces that to the `registryHas` flag. Which texture the resource manager
  returns, possibly this texture or a later one, is not modelled.
- PatchParsing.ParsePatchSpec, PatchParsing.ParsePatch: start from a patch with
  every property at its default. `CTPatchEx::parse` overwrites only the fields
  it reads, so on a patch that already had properties it would keep them. The
  texture parser calls it only on a freshly constructed `CTPatchEx`
  (CTexture.cpp:782-791), where the two agree.
- Reparsing: the tokenizer is not part of this model, so the token stream of a
  written patch is a hypothesis (`ReadsAt`). It consists of the words of the
  text in order, quotes removed, and each comma is a token of its own. The
  tokenizer's integer and number readings (`Reader`), the colour parser
  (`colourOf`) and the formatting (`Format`) are assumed to give back the
  values that were written (`Readable`).
- Reparsing.PatchTextReadsBack: proved only for a patch that `Readable`
  admits. It excludes these cases:
  - a Translation line, because translation text and its parser are foreign;
  - an alpha above 1, because no Alpha line is written
    (`OpaqueAboveOneGivesEmptyBlock`);
  - a style that is "Copy" in another case, because no Style line is written;
  - a name that is not upper case, because the parser upper-cases names;
  - a patch with no blend but a colour other than the default, because no
    Blend line is written without a colour or tint blend (CTexture.cpp:383),
    so the colour is lost;
  - a colour blend whose alpha is not 255, because only `Blend "#rrggbb"` is
    written for it (CTexture.cpp:385-391) and the parser stores alpha 255
    (CTexture.cpp:297-298), so the alpha is lost.
- Textures.ParseTextureSpec: its contract says only that the cursor moves
  forward within the stream. That parsing the text `CTexture::asText` writes
  gives the texture back is not proved. The written `Optional` keyword already
  prevents it (`OptionalKeywordIsExact`).
- Fonts.SFont.LoadFontM: requires at most 256 × 32 bytes of data, so that every
  glyph cell fits in the 256 × 256 image. The source does not check this: for
  taller glyphs it would call `SImage::setPixel` with coordinates outside the
  256 × 256 image. What `setPixel` does then is not modelled; SImage is not
  part of this model.
- UndoRedo.UndoManager.SetResetPoint: `setResetPoint` is declared in
  UndoRedo.h, which is not part of this model. The method models it as
  setting the reset point to the current level index, the point that
  `clearToResetPoint` later returns to.
