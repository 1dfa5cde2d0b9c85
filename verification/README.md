# Certificate generator: layout engine, composer and form rules

This project models the core of Gerador-de-Certificado-CAHIS, a desktop tool
that fills a certificate template with one participant's data.

- `core.py` builds one paragraph of text from the participant's fields. The
  paragraph has three styled segments: an opening, an event name that may be
  italic, and a closing. `draw_mixed_style_text` then lays it out on the
  template:
  - it splits the segments into measured words;
  - it packs the words greedily into lines no wider than a budget;
  - it centres each line on the template;
  - it stacks the lines at a fixed line height.
- `app.py` decides what reaches the composer:
  - the role and the normalised workload;
  - the preview placeholders;
  - the checks before an individual or a batch save;
  - the fields of a batch row;
  - the output file names;
  - the workload preset of each role;
  - which font files of each font folder form a family.

The modules are:

- `Text` (text.dfy) holds the Python string operations the program relies on. They are `str.split()`, `upper()`, `lower()`, `in`, `endswith` and single-character `replace`, written over `seq<char>`.
- `Layout` (layout.dfy) models `draw_mixed_style_text`. It has one imperative method per loop:
  - `CollectWords` builds the word list;
  - `PackLines` packs the lines;
  - `PlaceWords` and `PlaceLines` position the words.

  Each method is proved equal to a specification function (`WordStream`, `Pack`, `PlaceLine`, `PlaceAll`). The layout properties are lemmas about those functions. Drawing is modelled as the list of `Draw(text, style, x, y)` calls it makes. Glyph measurement is a parameter `measure: (string, Style) -> real`. The space width is `measure(" ", Regular)`. The bottom of the regular font's box for "A" is the parameter `capBottom`.
- `Composer` (composer.dfy) models the text-building part of `gerar_certificado`: placeholders, case normalisation, the document clause and the three segments.
- `FormRules` (form_rules.dfy) models the pure rules of the form in `app.py`.
- `FontFolders` (font_folders.dfy) models `load_fonts` over a given listing of the fonts folder. It has an imperative scan per folder (`ClassifyFolder`) and one over the listing (`LoadFonts`).

The model follows the code as written, including this quirk: after a word is
added to the current line (`core.py:21-22`), the running width also gains a
space, because the test `if current_line` runs after the append. So the
running width of the first line counts one space more than its drawn width.
Lines started at `core.py:24-26` do not. `PackFits` and `PackSealed` state the
bounds with this extra space (`RunningWidth`).

## Model

| member | source | states |
|---|---|---|
| Text.Split | core.py:13 | every token of `text.split()` is non-empty and holds no whitespace character |
| Text.TokenLength | core.py:13 | the run of non-whitespace characters at the front of a string ends at a whitespace character or at the end |
| Text.SplitKeepsVisible | core.py:13 | gluing the tokens back together gives the input with exactly its whitespace removed |
| Text.SplitBlank | core.py:13 | a string made only of whitespace, the empty one included, has no tokens |
| Text.SplitNonBlank | core.py:13 | a string with a non-whitespace character has at least one token |
| Text.TokenLengthAppend | core.py:13 | a token that ends inside a string, or just before a whitespace character, ends at the same place whatever follows |
| Text.SplitSingle | core.py:13 | a non-empty string without whitespace is one token |
| Text.SplitFirstToken | core.py:13 | a string that starts with a non-whitespace character splits into its first maximal run and the tokens of the rest |
| Text.SplitTokenAtSpace | core.py:13 | the case of `SplitAtSpace` where the left side starts with a token |
| Text.SplitAtSpace | core.py:13 | tokens never cross whitespace: splitting `a + c + b` with `c` whitespace gives the tokens of `a` then those of `b`, so each token is a maximal run of non-whitespace |
| Text.Upper | core.py:50 | `s.upper()`: each character case-mapped in place |
| Text.Lower | core.py:51 | `s.lower()`: each character case-mapped in place |
| Text.EndsWith | app.py:172 | `s.endswith(t)`: `s` ends with exactly the characters of `t` |
| Text.ReplaceChar | app.py:205 | `s.replace(a, b)` for single characters: every `a` becomes `b`, everything else stays |
| Text.UpperChar | core.py:50 | upper-casing a character leaves no lower-case letter, maps each lower-case letter to an upper-case one that lower-cases back, and keeps everything else |
| Text.LowerChar | core.py:51 | lower-casing a character leaves no upper-case letter |
| Text.UpperNormalises | core.py:50 | `upper()` leaves no lower-case letter, is idempotent and keeps the lower-cased form of the string |
| Text.LowerNormalises | core.py:51 | `lower()` leaves no upper-case letter, is idempotent and keeps the upper-cased form of the string |
| Text.Contains | app.py:172 | `t in s` holds exactly when `t` occurs in `s` at some index |
| Text.ReplaceCharRoundTrip | app.py:205 | replacing spaces by `_` is undone by the reverse replacement when the string had no `_` |
| Layout.WordStream | core.py:10-14 | the words of a list of segments: each segment's tokens in order, tagged with its style and measured in it |
| Layout.WordStreamAppend | core.py:11-14 | the words of two segment lists in a row are the words of the first, then those of the second |
| Layout.WordlessSegmentVanishes | core.py:11-14 | a segment with no tokens, such as an empty event, contributes no words |
| Layout.WordStreamOfThree | core.py:11-14 | the words of three segments are each segment's tokens in order, tagged with that segment's style |
| Layout.WordStreamShape | core.py:11-14 | the word texts are exactly the segments' tokens in order; each word's width is its measure in its style; each word is a token of a segment whose style it carries |
| Layout.WordStreamRegular | core.py:11-14 | when every segment with tokens is regular, every word is regular |
| Layout.CollectWords | core.py:10-14 | the word-collecting loops build the word stream of the segments |
| Layout.TimesIsProduct | core.py:34 | the repeated addition used for `n * space` is the real product |
| Layout.LineWidthIsProduct | core.py:34 | the line width is the sum of the word widths plus `(n - 1) * space` |
| Layout.Step | core.py:20-26 | one packing iteration leaves a non-empty open line and opens a new line exactly when the open line is non-empty and the word does not fit after it |
| Layout.StepKeepsWords | core.py:20-26 | one packing iteration appends exactly the new word to the sealed lines followed by the open line |
| Layout.Run | core.py:18-26 | the loop state after a word list: no words leave no lines, and any word leaves a non-empty open line |
| Layout.StepKeepsInv | core.py:19-26 | one packing step keeps the packing invariant: sealed lines non-empty and within budget, each closed by a word that did not fit, running width consistent |
| Layout.RunInv | core.py:16-26 | the invariant holds after the packing loop over any word list |
| Layout.RunKeepsWords | core.py:16-26 | the sealed lines followed by the open line are the input words |
| Layout.Pack | core.py:16-28 | the lines are the sealed lines and the open line if non-empty; there are none exactly when there are no words |
| Layout.PackKeepsWords | core.py:16-28 | packing neither drops, duplicates nor reorders words; every line is non-empty; there are no lines exactly when there are no words |
| Layout.PackFits | core.py:19-26 | every line of two or more words has a running width within `max_width`, extra space included on the first line; with a non-negative space its drawn width is within `max_width` too |
| Layout.PackSealed | core.py:20-26 | every line but the last was closed because the running width plus a space plus the next line's first word exceeded `max_width` |
| Layout.OversizedWordAlone | core.py:19-26 | with non-negative widths, a word wider than `max_width` sits alone on its line |
| Layout.PackLines | core.py:16-28 | the packing loop computes `Pack` of the word list |
| Layout.LineStart | core.py:34-35 | a line starts where its centre falls on the canvas centre: `x + width / 2 == canvasWidth / 2` |
| Layout.PlaceLine | core.py:37-39 | a line produces one draw per word |
| Layout.PlaceLineAt | core.py:37-39 | word `j` of a line is drawn at the line's start plus the widths and spaces of the earlier words, at the line's height |
| Layout.PlaceLineAdvance | core.py:39 | consecutive words are one word width plus one space apart |
| Layout.CentredLineEnds | core.py:34-39 | on a centred line, the last word ends as far from the right edge as the first word starts from the left |
| Layout.PlaceAll | core.py:33-40 | all lines produce one draw per word |
| Layout.PlaceAllAt | core.py:33-40 | word `j` of line `k` is at index `j` past the words of the lines before it, at the centred line start plus the earlier words and spaces, and at height `top + k` line heights |
| Layout.PlacePosition | core.py:30-40 | that draw shows word `j` of line `k` in its style at `x = start + widths before + j * space` and `y = top + k * lineHeight` |
| Layout.PlaceAllKeepsWords | core.py:33-40 | the draws show the lines' words in order, each in its own style |
| Layout.PlaceWords | core.py:35-39 | the inner drawing loop produces `PlaceLine` |
| Layout.PlaceLines | core.py:30-40 | the outer drawing loop, with the line width as the source computes it, produces `PlaceAll` |
| Layout.LineHeight | core.py:31 | the line height is defined as 1.5 times the regular font's cap bottom; its contract states only that it is at least the cap bottom when that is non-negative |
| Layout.Render | core.py:8-40 | the drawing of a list of segments: the word stream packed with the regular font's space as gap, each line centred, the first at `top` and each next one line height lower |
| Layout.RenderDependsOnWords | core.py:8-40 | the drawing depends on the segments only through their word stream |
| Layout.RenderSkipsWordless | core.py:8-40 | a middle segment without words changes nothing in the drawing of three segments |
| Layout.RenderKeepsWords | core.py:8-40 | the drawing shows every word of the segments, in order, in its segment's style |
| Layout.DrawMixedStyleText | core.py:3-40 | the whole procedure produces `Render` of the segments; it uses only the vertical coordinate of `pos` |
| Composer.PersonName | core.py:50 | the name is defaulted, then upper-cased: no lower-case letter remains, the letters are the given ones, and an empty name gives "[NOME DA PESSOA]" |
| Composer.RoleText | core.py:51 | a given role is lower-cased and keeps its letters; an empty one gives "[Função]" |
| Composer.OrDefault | core.py:52-53 | a given value is kept and an empty one becomes the placeholder; the result is empty only when both are |
| Composer.ActivityText | core.py:52 | the activity defaulted to "[Tipo de Atividade]" through `OrDefault` |
| Composer.ActivityTextLower | core.py:52 | lower-cased for the opening, the activity is the lower-cased input, or "[tipo de atividade]" when none was given |
| Composer.HoursText | core.py:53 | the workload defaulted to "[Horas]" through `OrDefault` |
| Composer.DocumentClause | core.py:55-61 | CPF or Matrícula with a number gives the matching clause; anything else gives a bare comma; the clause always starts and ends with a comma |
| Composer.DocumentClauseExamples | core.py:55-61 | the clause for a CPF with a number, for "Nenhum" and for a CPF without a number |
| Composer.Opening | core.py:64 | the opening sentence, up to the space before the event, assembled from the formatted name, clause, role and activity (its contracts are `OpeningShape` and the `OpeningMentions` lemmas) |
| Composer.OpeningText | core.py:64 | the opening's f-string over already formatted parts (its contracts are the `OpeningText` lemmas) |
| Composer.OpeningTextRole | core.py:64 | in an assembled opening, the clause follows the name, then " participou como ", then the role |
| Composer.OpeningTextActivity | core.py:64 | in an assembled opening, " da atividade de " and the activity follow the role, and only the final space comes after them |
| Composer.OpeningMentionsRole | core.py:51-64 | the opening holds the document clause right after the name, then " participou como " and the lower-cased role |
| Composer.OpeningMentionsActivity | core.py:52-64 | after the role, the opening holds " da atividade de " and the lower-cased activity, and ends one space later |
| Composer.OpeningShape | core.py:64 | the opening sentence starts with "Certificamos que ", then the formatted name, then the document clause's comma, and ends with a space |
| Composer.Closing | core.py:66 | the closing clause with the workload (its contract is `ClosingShape`) |
| Composer.ClosingShape | core.py:66 | the closing starts with a space, reads " com carga horária de ", then the workload text, and ends with "." |
| Composer.EventText | core.py:65 | the event text is empty exactly when the event name is; otherwise it is the name in double quotes |
| Composer.EventStyle | core.py:69 | the event is italic exactly when italics are asked for and the event name is non-empty |
| Composer.ComposeSegments | core.py:64-75 | exactly three segments: the regular opening, the event in its style, the regular closing |
| Composer.ComposedStream | core.py:64-75 | the certificate's words are the opening's tokens, then the event's in the event style, then the closing's |
| Composer.ItalicOnlyForEvent | core.py:65-75 | some word is italic exactly when italics are asked for and there is an event name; then the italic words are exactly the words of the quoted event name |
| Composer.EmptyEventLeavesNoTrace | core.py:65-75 | with no event name, the drawing equals that of the opening and closing segments alone |
| Composer.GenerateCertificate | core.py:50-85 | the certificate draws the composed segments at the fixed block height with the fixed width budget |
| FormRules.SelectedRole | app.py:188 | the custom text when the role box says "Outro", the box's label otherwise |
| FormRules.NormalizeHours | app.py:191 | a non-empty workload that does not end in "h" gets exactly "h" appended; one that ends in "h" is kept; an empty workload becomes "[Horas]" |
| FormRules.NormalizeHoursIdempotent | app.py:191 | normalising a non-empty workload twice equals normalising it once; the placeholder is not a fixed point |
| FormRules.NormalizeHoursExamples | app.py:191 | "5" becomes "5h" and "5h" stays "5h" |
| FormRules.CurrentData | app.py:189-191 | the form's fields as the composer gets them: placeholders for an empty name, role or event only in the preview, the workload always normalised |
| FormRules.PreviewIsComplete | app.py:190-191 | in the preview, name, role, event and workload are never empty |
| FormRules.SaveDecision | app.py:201-202 | the save is refused for an empty field (the event only when enabled), then for a missing document number when a document kind is chosen, and proceeds otherwise |
| FormRules.SaveIgnoresHours | app.py:201 | on the form's own data the missing-fields refusal depends only on name, activity, role and the enabled event, never on the workload |
| FormRules.BatchReady | app.py:215 | a batch starts exactly when the activity and workload are given and, if enabled, the event |
| FormRules.BatchReadyIgnoresHours | app.py:215 | on the form's own data the batch check never fails because of the workload |
| FormRules.Cell | app.py:227-228 | a row's value for a column, "" when the row has no such column |
| FormRules.BatchRequest | app.py:227-228 | a batch row supplies name, document and role (with the same "Outro" rule); everything else comes from the form |
| FormRules.IndividualFilename | app.py:205 | "certificado_", then the name with its spaces as `_`, then ".pdf": 16 characters longer than the name, with no space, and the name can be read back when it had no `_` |
| FormRules.BatchFilename | app.py:229-230 | name with spaces as `_`, then "-" and the document number unless the number reads "nan", then ".pdf" |
| FormRules.Decimal | app.py:185 | `str(n)` of a preset: a non-empty string of decimal digits whose value is `n`, with no leading zero, and "0" for 0 |
| FormRules.HoursForRole | app.py:184-185 | the workload field after choosing a role: the role's preset, or empty for "Outro" and for roles without a preset |
| FormRules.PresetHoursGetUnit | app.py:184-185 | a preset workload gains the unit "h" when normalised; a cleared one becomes the placeholder |
| FormRules.HoursForRoleExamples | app.py:39 | "Ouvinte" gives "5", "Apresentador(a)" gives "10", "Outro" gives "" |
| FontFolders.IsItalicFile | app.py:172 | a file is italic when its lower-cased name contains "italic" and ends in ".ttf" |
| FontFolders.IsRegularFile | app.py:172-173 | a file is regular when it is not italic and its lower-cased name contains "regular" and ends in ".ttf" |
| FontFolders.LastMatch | app.py:171-173 | the index of the last file meeting a test, absent exactly when none does |
| FontFolders.ClassifyFolder | app.py:170-173 | the scan finds the last italic `.ttf` and the last `.ttf` mentioning "regular" that is not italic, so a name with both words counts as italic |
| FontFolders.FamilyFonts | app.py:174 | a family is produced exactly when the folder has a regular file |
| FontFolders.FamilyFontsChoice | app.py:171-174 | the regular face is the folder's last regular file; the italic face is its last italic file, or the regular face when there is none |
| FontFolders.EntryFonts | app.py:168-174 | a folder entry contributes its family's fonts, anything else nothing |
| FontFolders.FontTable | app.py:165-175 | the table is built entry by entry, a later entry of a name replacing an earlier one |
| FontFolders.LoadFonts | app.py:164-175 | the scan over the folder listing builds `FontTable` |
| FontFolders.CollectKeys | app.py:168-174 | a name is in a table built entry by entry exactly when some entry of that name contributes |
| FontFolders.CollectEntry | app.py:168-174 | with distinct names, the table holds exactly each contributing entry's value |
| FontFolders.FontTableKeys | app.py:168-174 | a family is offered exactly when some folder of that name has a regular face |
| FontFolders.FontTableEntry | app.py:168-174 | with distinct folder names, a family's entry is exactly what its own folder's files give |

## Left out

- Pillow is not modelled: opening the template, loading fonts, measuring text, the font box and painting. Measuring is the `measure` parameter, the box is `capBottom`, and painting is the list of `Draw` values.
- Pillow's widths are floats; the model measures with exact reals, so no rounding is modelled.
- The `try`/`except` around `gerar_certificado` (`core.py:46`, `core.py:89-91`) turns any error into a message. The model has no such path. The errors are file I/O, which is not modelled, and a NaN role from a spreadsheet, described under `BatchRequest` below.
- The font fallback `fonts.get(style, fonts['regular'])` (`core.py:12`) is not modelled. `gerar_certificado` always supplies both styles, so the fallback is never used.
- Case mapping covers ASCII and Latin-1 letters only. Letters such as `ß`, `ÿ` and `µ` and letters outside Latin-1 are left unchanged.
- Whitespace for `split()` is the full set of characters Python treats as whitespace.
- The Qt interface is not modelled: widgets, signals, dialogs, message boxes, preview scaling, the progress dialog, and the link and mail openers.
- Directory handling is not modelled: `os.path.isdir`, `os.listdir` and the bootstrap of user folders. `LoadFonts` takes the listing as a value. An absent folder is an empty listing, and `os.listdir` order is the listing's order. `os.path.join` is modelled as joining with "/".
- Reading spreadsheets and saving images are not modelled. For a batch row, the model covers only the fields a row supplies and the file name.
- BatchRequest: cells are modelled as strings, and an absent cell reads as "". The document-number cell holds the text `str` gives it (`app.py:228`), so an empty one holds "nan". With that, `DocumentClause` and `BatchFilename` match the source. Every other cell holds "" when empty. pandas reads such a cell as NaN, a float, and that changes two outcomes.
  - An empty name cell, or a missing name column (`None`), fails at `replace` when the file name is built (`app.py:230`). The handler at `app.py:235` then abandons the rest of the batch. The model instead names the file from "" and draws "[NOME DA PESSOA]".
  - An empty role cell, or an empty custom-role cell under "Outro", is NaN, which is truthy. Its `lower()` at `core.py:51` then fails, `gerar_certificado` reports an error, and no file is written for that row. The model draws "[Função]" instead.
  - The "nan" test in `BatchFilename` is for that empty document number. `pd.notna` on the string is always true. The clause then reads ", portador(a) do CPF nan," for a CPF, as `core.py:56-57` writes it.
- The window's choice of the first font family and the preview's early return are not modelled. Both belong to the interface.
