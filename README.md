# Proposal website and document scripts, modelled in Dafny

This project models the computational core of a sales-proposal website for a
local AI agent working with 1C:Enterprise, together with the Python scripts
that generated and later edited the proposal documents. It has one Dafny
module per source file:

- **Price catalog** (`Pricing`): seeding the catalog from `INITIAL_PRICES`,
  the live-mode tick that moves one entry by a fluctuation and rounds it to
  the nearest 1000, and the trend of a tick.
- **Quotes** (`Quote`, `Calculator`, `ProposalDialog`, `Specs`, `Variants`):
  price resolution (`fixedPrice || currentPrice || 0`), the selection record
  and its toggle, the export loops, the badges and the page totals, with
  lemmas tying the pages to each other.
- **Payback** (`ROIChart`, `ROICalculator`): the 25-point cumulative-cost
  series, the break-even search and how it is printed, and the closed-form
  savings, payback and three-year ROI.
- **Small state machines** (`Configurator`, `Demo`, `VideoPlayer`, `Gantt`,
  `Roadmap`, `VariantContext`): the wizard, the upload simulation, the
  four-frame player, the timeline geometry and the expanded-phase record.
- **Exporters** (`PdfProposal`, `DocxProposal`): the table each exporter
  builds, the font fallback, the layout of the terms and the signature, and
  the file names.
- **Python generators** (`ProposalV12`, `ProposalV13`, `ProposalV14`,
  `ProposalV15`, with `Grouping`, `CellBorder` and `WordGen`): item tables,
  numbering, totals, the space-grouped number format and its parser, the
  page-number field and the cell-border XML.
- **Python edit scripts** (`Docx`, `Text`, `Remove1C`, `RemoveStorage`,
  `UpdateServerQty`, `UpdateSwitchQty`, `ReplaceSwitchModel`,
  `ReplaceServerModel`, `ReplaceSwitches`, `PlanUpdate`, `QuantityFix`): a
  document is a value holding paragraphs and tables of cells. Row filters,
  row-scoped rewrites and global replacement, following Python's
  `str.replace`, are methods proved against specification functions.

Components whose state the source updates in place are classes, one per
component: the catalog, the dialog, the calculator and specification pages,
the ROI calculator, the wizard, the demo, the player, the Gantt hover state,
the roadmap and the fpdf writer. Their methods are specified by pure
functions, and those functions carry the lemmas. Timers, `Math.random`,
`Date`, `fetch` and the number formatters are parameters of the operations
that use them.

Where the code and the documented design disagree, the model follows the
code:
- Toggling live mode re-runs the initialisation effect, which depends on
  `isLive`, so every toggle re-seeds all prices (`Pricing.PriceCatalog.SetLive`).
  The design says toggling does not reset prices.
- Seeds of 0 exist and stay 0 through every tick (`Pricing.ZeroStaysZero`),
  so a current price is not always positive.
- The fluctuation is `(Math.random() - 0.5) * 0.04`, which lies in
  [-0.02, 0.02). The model takes the fluctuation as a parameter and accepts
  any value.
- The "minimal" and "full" selection presets the design mentions do not exist
  in the code. The calculator starts with every item selected.

## Model

| member | source | states |
|---|---|---|
| Text.ReplaceAbsent | remove_storage.py:3-6 | `s.replace(pat, rep)` on a string without `pat` returns it unchanged, so the `in` guard before each replacement changes nothing |
| Text.ReplacePresentChanges | remove_storage.py:4-5 | when `pat` occurs and `rep` does not contain it, the replacement changes the text |
| Text.NoOccurrenceAfterReplace | replace_server_model.py:3-5 | after `s.replace(pat, rep)` no occurrence of `x` is left, when `x` is `pat` or was absent and `rep` cannot create it |
| Text.ReplaceIdempotent | replace_switches.py:3-5 | with a replacement that cannot recreate the old text, replacing twice is replacing once |
| Text.ContainsIff | remove_1c_from_docx.py:7 | `w in s` holds exactly when `w` occurs at some offset of `s` |
| Text.JoinContains | remove_storage.py:11-13 | a cell paragraph's text is part of `cell.text`, so a cell whose text lacks the old text has no paragraph containing it |
| Text.StripSpec | update_server_qty.py:46 | `s.strip()` is `s` without its leading and trailing whitespace and neither starts nor ends with whitespace |
| Text.FindFrom | update_implementation_plan.py:43 | the first offset at or after `i` where `w` occurs, or -1 when there is none |
| Text.SplitHead | update_implementation_plan.py:43 | `s.split(w)[0]` is the text before the first `w`, or all of `s` without one, and contains no `w` |
| Text.SplitSecond | update_implementation_plan.py:43 | `s.split(w)[1]` starts right after the first `w`, holds no `w`, and runs to the next `w` or to the end of `s` |
| Docx.SetCellText | update_server_qty.py:47 | assigning `cell.text` leaves one paragraph holding exactly the new text |
| Docx.ReplaceInParagraph | remove_storage.py:3-6 | `replace_text_in_paragraph` equals an unguarded `replace` |
| Docx.ReplaceEach | remove_storage.py:12-13 | each paragraph of a list is replaced, and the list keeps its length |
| Docx.ReplaceTable | remove_storage.py:8-13 | `replace_text_in_table` keeps every table's shape and replaces in every cell that mentions the old text |
| Docx.ReplaceInCellVisitsAll | remove_storage.py:11 | skipping cells whose text lacks the old text gives the same result as visiting every cell |
| Docx.ReplaceEachClears | remove_storage.py:3-6 | after the replacement no paragraph contains the old text, when the new text cannot recreate it |
| Docx.ReplaceEachKeepsFree | replace_server_model.py:3-5 | a replacement that cannot create `x` keeps paragraphs free of `x` |
| Docx.ReplaceTableClears | remove_storage.py:8-13 | after `replace_text_in_table` no cell paragraph of the table contains the old text |
| Docx.ReplaceTableKeepsFree | replace_server_model.py:8-13 | a table free of `x` stays free of `x` under a replacement that cannot create it |
| Docx.ReplaceTableIdempotent | replace_switches.py:8-13 | running `replace_text_in_table` twice equals running it once |
| Docx.ApplyReplacementsAbsent | update_implementation_plan.py:17-20 | a paragraph containing none of the old texts of a replacement list is left as it is |
| Docx.WithoutMembers | remove_1c_from_docx.py:3-15 | a row survives the deletion iff it was in the table and its test does not drop it |
| Docx.WithoutConcat | remove_1c_from_docx.py:11-15 | deleting the collected rows keeps the survivors in their original order |
| Docx.WithoutTwice | remove_1c_from_docx.py:27-28 | two deletion passes drop exactly the rows either pass drops |
| Docx.RowMentions | update_server_qty.py:37-41 | the flag loop with `break` returns true iff some cell of the row mentions the marker |
| Docx.ReplaceTextInParagraphs | remove_storage.py:12-13 | the paragraph loop returns exactly the function `ReplaceEach` |
| Docx.ReplaceTextInTable | remove_storage.py:8-13 | the row and cell loops return exactly the function `ReplaceTable` |
| QuantityFix.FixRow | update_server_qty.py:34-52 | a row is changed only when one of its cells mentions the product, and it keeps its width |
| QuantityFix.FixQuantities | update_server_qty.py:34-52 | the loops over tables, rows and cells return exactly the function `Fixed` |
| QuantityFix.FixTable | update_server_qty.py:35-52 | row by row, each row of the table becomes `FixRow` of it |
| QuantityFix.FixCells | update_server_qty.py:45-52 | cell by cell, each cell of a marked row becomes `FixCell` of it |
| QuantityFix.FixedKeepsShape | update_server_qty.py:34-52 | body paragraphs, table and row counts are kept, and rows without the product name are unchanged |
| QuantityFix.QuantityCellBecomesOne | update_server_qty.py:46-47 | in a marked row, a cell reading "2" up to whitespace now reads exactly "1" |
| QuantityFix.SumCellRewritten | update_server_qty.py:50-51 | in a marked row, a cell mentioning the old sum becomes its text with every old sum replaced by the new one |
| QuantityFix.OtherCellKept | update_server_qty.py:45-51 | any other cell of a marked row is kept |
| UpdateServerQty.UpdateServerQty | update_server_qty.py:34-52 | the script's result is `Fixed` with the YADRO G4208P G3 marker and the sums 64 302 318 and 32 151 159 |
| UpdateServerQty.SumsFollowQuantity | update_server_qty.py:22 | the two sums are the space-grouped amounts of two and of one server at 32 151 159 |
| UpdateSwitchQty.UpdateSwitchQty | update_switch_qty.py:22-40 | the script's result is `Fixed` with the Eltex MES5324 marker and the sums 998 000 and 499 000 |
| UpdateSwitchQty.SumsFollowQuantity | update_switch_qty.py:20 | the two sums are the space-grouped amounts of two and of one switch at 499 000 |
| Remove1C.RemoveRowContainingText | remove_1c_from_docx.py:3-15 | collecting the rows, each once, and then removing them leaves exactly the rows that mention nothing |
| Remove1C.Remove1C | remove_1c_from_docx.py:24-28 | the script's result is `Removed`: both spellings removed, table by table |
| Remove1C.RemovedRows | remove_1c_from_docx.py:24-28 | a row is kept iff no cell mentions either spelling, in order, and body paragraphs are unchanged |
| RemoveStorage.IsStorageRow | remove_storage.py:30-37 | the flag loop returns true iff some cell mentions both "СХД" and "Raidix" or mentions "Aerodisk" |
| RemoveStorage.RemoveStorageRows | remove_storage.py:25-47 | collecting every storage row of every table and then removing each returns exactly `Removed` |
| RemoveStorage.RemovedRows | remove_storage.py:25-47 | a row survives iff it was there and is not a storage row; paragraphs and table count unchanged, no table grows |
| RemoveStorage.SplitCellsKept | remove_storage.py:32 | the two words in two different cells do not mark a row |
| RemoveStorage.OneCellDropped | remove_storage.py:32 | both words in one cell mark the row |
| ReplaceServerModel.Replacements | replace_server_model.py:19-23 | the three pairs, none with an empty old text |
| ReplaceServerModel.ReplaceServerModel | replace_server_model.py:25-33 | every pair in order on each body paragraph, then each pair table-wide, returns exactly `Replaced` |
| ReplaceServerModel.NewTextsSafe | replace_server_model.py:19-23 | neither new text can give rise to either server name or to the old price |
| ReplaceServerModel.TableAllIsPerParagraph | replace_server_model.py:31-33 | applying the pairs table-wide one after another equals applying all of them to each cell paragraph |
| ReplaceServerModel.ParagraphCleared | replace_server_model.py:26-28 | afterwards a paragraph mentions neither server name nor 3 750 000 |
| ReplaceServerModel.ReplacedClears | replace_server_model.py:25-33 | afterwards no paragraph of the document, body or table, mentions an old text |
| ReplaceSwitchModel.RenameSwitchModel | replace_switch_model.py:27-33 | the paragraph pass and the table pass return exactly `Renamed` |
| ReplaceSwitchModel.NewNameSafe | replace_switch_model.py:24-25 | MES2300-24 cannot give rise to MES2324 |
| ReplaceSwitchModel.RenamedClears | replace_switch_model.py:27-33 | afterwards no paragraph, body or table, mentions MES2324 |
| ReplaceSwitchModel.RenamedIdempotent | replace_switch_model.py:27-33 | running the script on its own output changes nothing |
| ReplaceSwitches.SwitchRow | replace_switches.py:30-49 | a processed row keeps its width |
| ReplaceSwitches.ProcessRow | replace_switches.py:30-49 | the rename loop with its flag, then the price loop, returns exactly `SwitchRow` |
| ReplaceSwitches.ReplaceSwitches | replace_switches.py:29-54 | every row of every table, then every body paragraph, returns exactly `Switched` |
| ReplaceSwitches.BodyCleared | replace_switches.py:52-54 | afterwards no body paragraph mentions MES5324 or MES2324 |
| ReplaceSwitches.NonSwitchRowKeepsPrices | replace_switches.py:39-44 | a row without MES5324 only has MES2324 renamed and its prices are kept |
| ReplaceSwitches.SwitchRowRepriced | replace_switches.py:44-48 | in a switch row no cell mentions 499 000 afterwards, and each cell that did is one paragraph |
| ReplaceSwitches.BothNamesKeepOld | replace_switches.py:34-42 | a cell holding both names keeps MES2324, because that rename sits in the `elif` |
| PlanUpdate.PlanReplacements | update_implementation_plan.py:9-15 | the five pairs, in insertion order, none with an empty key |
| PlanUpdate.RewrittenTable | update_implementation_plan.py:25-31 | every cell paragraph is rewritten, none skipped, and the row count is kept |
| PlanUpdate.RewriteParagraph | update_implementation_plan.py:18-20 | the loop over the dictionary returns `ApplyReplacements` of the paragraph |
| PlanUpdate.RewriteParagraphs | update_implementation_plan.py:17-20 | each paragraph of the list is rewritten by the dictionary and the count is kept |
| PlanUpdate.RewriteTable | update_implementation_plan.py:25-31 | the row, cell and paragraph loops return exactly `RewrittenTable` |
| PlanUpdate.UpdateImplementationPlan | update_implementation_plan.py:5-31 | body paragraphs then every table, returning exactly `PlanUpdated` |
| PlanUpdate.UnrelatedParagraphsKept | update_implementation_plan.py:17-31 | a paragraph containing none of the five keys, in the body or in a cell, is unchanged |
| PlanUpdate.ParseInt | update_implementation_plan.py:43 | `int(s)` succeeds iff `s` is a non-empty string of decimal digits |
| PlanUpdate.FirstVersionMark | update_implementation_plan.py:43 | in a candidate name the first `_v` is the one ending the prefix |
| PlanUpdate.VersionText | update_implementation_plan.py:43 | the sort key's text is what follows the prefix, up to the next `_v` and then the first dot |
| PlanUpdate.LatestBy | update_implementation_plan.py:38-46 | no candidate iff no kept entry; `int` raises iff some candidate's key is not a number, at the first such; otherwise the chosen file carries the maximal key, is the last such in the list, and the output is version + 1 |
| PlanUpdate.LatestProposal | update_implementation_plan.py:38-46 | the same for the script's own prefix and suffix filter and key |
| PlanUpdate.OutputNameRoundTrip | update_implementation_plan.py:38-46 | the output name is itself a candidate and its version reads back as the number written into it |
| Grouping.Digits | generate_proposal_v13.py:166-167 | `str(n)` is a non-empty string of decimal digits |
| Grouping.DigitsValue | generate_proposal_v13.py:166-167 | `str(n)` reads back as `n` |
| Grouping.Grouped | generate_proposal_v12.py:114-115 | the grouped amount is non-empty and made only of digits and the separator |
| Grouping.GroupedRoundTrip | generate_proposal_v12.py:114-115 | a grouped amount reads back as the number that was formatted |
| Grouping.AmountIsSpaceGrouped | generate_proposal_v13.py:168 | `f'{n:,.0f}'.replace(',', ' ')` is `n` grouped by three with spaces |
| Grouping.Amount | generate_proposal_v14.py:153 | the printed amount is the space-grouped number and reads back as `n` |
| Grouping.AmountInLine | generate_proposal_v13.py:181 | formatting a whole line and then replacing its commas gives the surrounding text around `Amount(n)`, when that text has no comma |
| CellBorder.QnInjective | generate_proposal_v13.py:55-66 | distinct names give distinct `w:` qualified names |
| CellBorder.EdgesAndKeysDistinct | generate_proposal_v13.py:52-66 | the six edges and the five attribute keys have pairwise distinct qualified names |
| CellBorder.FindChildFrom | generate_proposal_v13.py:58 | `find(tag)` returns the first child with the tag, and None iff there is none |
| CellBorder.FindOrAppend | generate_proposal_v13.py:46-49 | an existing element is found and the children are kept; otherwise one empty element is appended at the end and used |
| CellBorder.SetAttr | generate_proposal_v13.py:64-66 | `element.set(name, v)` gives `name` the value, keeps every other attribute, keeps the place of an existing attribute and adds a new one last |
| CellBorder.SetAttrsSets | generate_proposal_v13.py:64-66 | after the key loop every requested attribute has its value and every other attribute is as it was |
| CellBorder.SetAttrsNoop | generate_proposal_v13.py:64-66 | setting values the element already has changes nothing |
| CellBorder.SetCellBorder | generate_proposal_v13.py:30-66 | the find-or-create of `w:tcBorders`, the edge loop and the key loop return exactly `CellBorders` |
| CellBorder.OnlyEdgesWritten | generate_proposal_v13.py:52-66 | the edge loop only touches or appends elements whose tag is a requested edge; existing children keep their positions and tags |
| CellBorder.CountNoneIsZero | generate_proposal_v13.py:58-61 | no child has the tag iff `find` returns None |
| CellBorder.ApplyEdgeCount | generate_proposal_v13.py:58-61 | one edge adds an element of its tag only when there was none |
| CellBorder.NoDuplicateEdges | generate_proposal_v13.py:52-61 | the edge loop never duplicates an edge element, and other tags keep their counts |
| CellBorder.ApplyEdgeEstablishes | generate_proposal_v13.py:54-66 | after one edge its element holds every requested attribute value |
| CellBorder.ApplyEdgeKeeps | generate_proposal_v13.py:52-66 | a later edge does not undo what an earlier edge established |
| CellBorder.ApplyEdgesEstablish | generate_proposal_v13.py:52-66 | after the edge loop every requested edge is applied |
| CellBorder.BordersWritten | generate_proposal_v13.py:30-66 | each requested edge's first element holds every requested attribute value |
| CellBorder.CellBordersIdempotent | generate_proposal_v13.py:30-66 | calling `set_cell_border` twice with the same arguments gives what one call gives |
| WordGen.PageField | generate_proposal_v13.py:15-24 | the field is begin marker, `PAGE` instruction with preserved space, end marker |
| WordGen.Run.AddPageNumber | generate_proposal_v13.py:26-28 | the three field elements are appended after what the run held and its text is kept |
| WordGen.FooterParagraph.AddRun | generate_proposal_v12.py:33 | a new empty run is added at the end |
| WordGen.FooterParagraph.SetText | generate_proposal_v13.py:219 | the runs are replaced by one run holding the text |
| WordGen.FillRows | generate_proposal_v12.py:108-116 | the header, then one row per item in order, and the total is the sum of the amounts |
| ProposalV12.ItemRow | generate_proposal_v12.py:111-115 | an item row has four cells |
| ProposalV12.ItemRowReads | generate_proposal_v12.py:111-115 | the cells read back as the name, the quantity, the price and the subtotal |
| ProposalV12.ItemTable | generate_proposal_v12.py:93-116 | the header, then one row per item in order, and no total row |
| ProposalV12.FillItemTable | generate_proposal_v12.py:109-116 | the item loop builds exactly `ItemTable` and sums the subtotal column |
| ProposalV12.SumOfSubtotals | generate_proposal_v12.py:109-116 | the generic row loop's total is the subtotal column's sum |
| ProposalV12.SubtotalsAreLineTotals | generate_proposal_v12.py:101-116 | where every subtotal is quantity times price, the subtotal sum is the sum of the line totals |
| ProposalV12.TotalNotRecomputed | generate_proposal_v12.py:110-116 | a subtotal that disagrees with quantity times price is summed as given |
| ProposalV12.DataTotals | generate_proposal_v12.py:101-148 | in the script's data the totals are 32 545 159 (optimal) and 1 429 000 (basic), and equal the line totals |
| ProposalV12.TotalLineReads | generate_proposal_v12.py:118 | the total line is the label, the space-grouped total and the rouble sign, and the number reads back as the total |
| ProposalV12.Heading | generate_proposal_v12.py:46-59 | headings are bold; level 1 is 16 pt in dark blue, every other level is grey; space before exceeds space after |
| ProposalV12.SetFooter | generate_proposal_v12.py:28-35 | the footer paragraph is right-aligned and gains one run, "Страница " followed by the PAGE field |
| ProposalV13.ItemTable | generate_proposal_v13.py:126-178 | the shaded header, then row `k` for item `k` numbered from 1, then the total row with the sum of the prices |
| ProposalV13.Strays | generate_proposal_v13.py:163 | `n` stray one-row tables of four empty cells |
| ProposalV13.HardwareSection | generate_proposal_v13.py:161-181 | the item loop and what follows return exactly `Section` and the sum of the prices |
| ProposalV13.ItemRowsRead | generate_proposal_v13.py:162-168 | each item row reads back as its position, the name, the quantity and the price |
| ProposalV13.TotalRowReads | generate_proposal_v13.py:172-178 | the total row spans three cells, is labelled "ИТОГО:" aligned right, and its amount reads back as the sum of the prices |
| ProposalV13.SingleQuantities | generate_proposal_v13.py:161-169 | the sum of prices is the sum of line totals when every quantity is 1 |
| ProposalV13.QuantityIgnored | generate_proposal_v13.py:169 | with a quantity of 2 the total counts the price once |
| ProposalV13.TableCountConcat | generate_proposal_v13.py:163 | table counts add up over concatenated blocks |
| ProposalV13.StrayCount | generate_proposal_v13.py:163 | `n` stray tables are `n` tables |
| ProposalV13.SectionTables | generate_proposal_v13.py:126-181 | the section adds one table per item besides the main one |
| ProposalV13.CostLineReads | generate_proposal_v13.py:181 | the cost sentence is the label, the space-grouped total and the rest |
| ProposalV13.DataTotal | generate_proposal_v13.py:153-169 | the script's total is 35 440 159, and it equals the sum of the line totals |
| ProposalV13.SetFooter | generate_proposal_v13.py:216-220 | the footer has two runs: "Страница ", then an empty run holding the PAGE field; the alignment is unchanged |
| ProposalV14.ModuleParagraphText | generate_proposal_v14.py:80-85 | a module paragraph reads as the title, a line break and the description, and only the title run is bold |
| ProposalV14.AddModules | generate_proposal_v14.py:80-85 | one paragraph per module, in order |
| ProposalV14.SpecTable | generate_proposal_v14.py:93-110 | the header, then one (component, description) row per entry in order |
| ProposalV14.FillSpecTable | generate_proposal_v14.py:107-110 | the loop builds exactly `SpecTable` |
| ProposalV14.SpecTableTwoColumns | generate_proposal_v14.py:93-110 | every row of the specification table has two cells |
| ProposalV14.BudgetRow | generate_proposal_v14.py:150-153 | an item row has three cells |
| ProposalV14.BudgetTable | generate_proposal_v14.py:133-158 | the header, one row per item in order, then the total row with the sum of the prices |
| ProposalV14.SumOfPrices | generate_proposal_v14.py:148-154 | the generic row loop's total is the sum of the prices |
| ProposalV14.FillBudgetTable | generate_proposal_v14.py:148-158 | the item loop and the total row build exactly `BudgetTable` and the sum of the prices |
| ProposalV14.BudgetTableThreeColumns | generate_proposal_v14.py:133-158 | every row of the budget table has three cells |
| ProposalV14.BudgetRowReads | generate_proposal_v14.py:150-153 | item rows read back as name, quantity and price |
| ProposalV14.BudgetTotalReads | generate_proposal_v14.py:156-158 | the total row is labelled "ИТОГО", leaves the quantity cell empty, and its amount reads back as the sum of the prices |
| ProposalV14.DataTotal | generate_proposal_v14.py:140-154 | the script's total is 42 740 159 and equals the line totals; the tables have 7 and 6 rows |
| ProposalV14.QuantityIgnored | generate_proposal_v14.py:154 | a quantity of 3 still counts the price once |
| ProposalV15.PdfWriter.Cell | generate_proposal_v15.py:39 | one cell is appended to the current line, filled with the current colour only when asked; nothing else changes |
| ProposalV15.PdfWriter.Ln | generate_proposal_v15.py:40 | the current line is finished and a new one begins |
| ProposalV15.PdfWriter.AddTable | generate_proposal_v15.py:32-52 | the header line, then one line per data row; the final fill colour follows the row count's parity |
| ProposalV15.PdfWriter.AddTotal | generate_proposal_v15.py:54-58 | one more line, the label over all columns but the last and then the amount, in bold |
| ProposalV15.PdfWriter.AddPage | generate_proposal_v15.py:101 | the page number grows by one and the lines are kept |
| ProposalV15.PdfWriter.ChapterTitle | generate_proposal_v15.py:20-24 | one line holding the title as a single bold, unbordered, left-aligned cell, then an empty line for `ln(4)` |
| ProposalV15.PdfWriter.Section | generate_proposal_v15.py:81-98 | a variant's title lines, header line, one line per data row, total line and the empty line for `ln(10)`, all on the current page |
| ProposalV15.PdfWriter.Variants | generate_proposal_v15.py:80-122 | the basic section with its chapter title on the current page, then on a new page the optimal section with its chapter title |
| ProposalV15.SectionLines | generate_proposal_v15.py:81-98 | a section has five lines more than rows: title, empty, header, the rows, total, empty |
| ProposalV15.TableLayout | generate_proposal_v15.py:37-52 | header cells are centred and filled blue; data column 0 is left-aligned and the others right-aligned; row `k` is filled grey iff `k` is odd |
| ProposalV15.TotalTextReads | generate_proposal_v15.py:57 | the amount cell is the space-grouped total followed by " ₽" |
| ProposalV15.TotalLineReads | generate_proposal_v15.py:54-58 | the label spans all widths but the last, and the amount reads back as the total |
| ProposalV15.LabelWidth | generate_proposal_v15.py:83 | with the script's widths the label is 150 wide and the whole table 190 |
| ProposalV15.DataFits | generate_proposal_v15.py:82-118 | every row fits the four columns; there are 8 basic rows and 13 optimal rows |
| ProposalV15.ParseRub | generate_proposal_v15.py:85-118 | reading an amount cell succeeds only on a string ending in " ₽" |
| ProposalV15.ParseRubRoundTrip | generate_proposal_v15.py:57 | a space-grouped amount with " ₽" reads back as the number |
| ProposalV15.RowOfParses | generate_proposal_v15.py:85-118 | a row that writes out a line reads back as the line's quantity, unit price and sum |
| ProposalV15.ProductsAt | generate_proposal_v15.py:85-118 | where products hold from line `i` on, quantity times unit price is the sum of each later line |
| ProposalV15.SumColumnOfLines | generate_proposal_v15.py:85-118 | the parsed "Сумма" column sums to the lines' total |
| ProposalV15.ParsedRows | generate_proposal_v15.py:85-118 | rows written from consistent lines are consistent when read back, and their "Сумма" column sums to the lines' total |
| ProposalV15.ThousandsCell | generate_proposal_v15.py:86-117 | an amount cell of whole thousands below a million, written as its leading digits and " 000 ₽", is the space-grouped amount with " ₽" |
| ProposalV15.MillionsCell | generate_proposal_v15.py:86-117 | the same for whole thousands from a million up, written as leading digits, a three-digit group and " 000 ₽" |
| ProposalV15.BasicRowsMatch | generate_proposal_v15.py:85-94 | every literal basic row writes out the quantity, unit price and sum of the basic line at its index |
| ProposalV15.OptimalRowsMatch | generate_proposal_v15.py:104-118 | every literal optimal row writes out the quantity, unit price and sum of the optimal line at its index |
| ProposalV15.LinesTotals | generate_proposal_v15.py:85-121 | on every transcribed line quantity times unit price is the sum, and the sums add up to 7 285 000 and 21 590 000 |
| ProposalV15.HardCodedTotals | generate_proposal_v15.py:85-121 | every literal row of both tables, read back from its strings, has quantity times unit price equal to its sum, and the "Сумма" column read back from the strings sums to the hard-coded totals 7 285 000 and 21 590 000 |
| Pricing.Ids | client/src/hooks/useEquipmentPricing.ts:14-50 | the ids of the first `n` seed rows, no more and no fewer |
| Pricing.SeededKeys | client/src/hooks/useEquipmentPricing.ts:59-71 | seeding gives a catalog whose keys are exactly the seed ids |
| Pricing.SeededFresh | client/src/hooks/useEquipmentPricing.ts:61-69 | every seeded entry is named by its id, has equal base and current prices and a stable trend |
| Pricing.SeededLast | client/src/hooks/useEquipmentPricing.ts:60-70 | each id holds its last seed row's price |
| Pricing.Round | client/src/hooks/useEquipmentPricing.ts:84 | `Math.round` gives the integer within half of its argument, halves rounded up |
| Pricing.NewPrice | client/src/hooks/useEquipmentPricing.ts:83-84 | the new price is a multiple of 1000 within 500 of the moved price, and a zero price stays zero |
| Pricing.TrendOf | client/src/hooks/useEquipmentPricing.ts:90 | up iff the price rose, down iff it fell, stable iff unchanged |
| Pricing.Ticked | client/src/hooks/useEquipmentPricing.ts:86-91 | a ticked entry keeps id, name, base price and currency, and gets the new price and its trend |
| Pricing.TickLocal | client/src/hooks/useEquipmentPricing.ts:77-94 | a tick changes only the chosen entry and keeps the key set |
| Pricing.ZeroStaysZero | client/src/hooks/useEquipmentPricing.ts:42-46 | an entry priced zero stays at zero through any series of ticks, and the key set is kept |
| Pricing.SeedFacts | client/src/hooks/useEquipmentPricing.ts:14-50 | the seed has 28 rows, and three seed prices are not multiples of 1000 |
| Pricing.PriceCatalog.constructor | client/src/hooks/useEquipmentPricing.ts:53-71 | at mount live mode is off and the catalog is the seeded one |
| Pricing.PriceCatalog.Initialise | client/src/hooks/useEquipmentPricing.ts:59-71 | the seeding loop stores exactly the seeded catalog |
| Pricing.PriceCatalog.Tick | client/src/hooks/useEquipmentPricing.ts:74-96 | nothing changes while not live; otherwise exactly the chosen entry is ticked |
| Pricing.PriceCatalog.SetLive | client/src/hooks/useEquipmentPricing.ts:57-99 | changing the flag re-seeds the catalog, and setting the same value changes nothing |
| Quote.Named | client/src/lib/generateProposal.ts:7-22 | the exporters' rows are the priced items in order, each with its display name, quantity and price |
| Quote.Resolve | client/src/pages/Calculator.tsx:98 | a non-zero fixed price wins; an absent or zero one falls back to the catalog, which reads a missing entry as 0 |
| Quote.PriceAll | client/src/components/ProposalConfigDialog.tsx:57-60 | every item keeps its place and receives its resolved price |
| Quote.Toggle | client/src/pages/Calculator.tsx:47-52 | the id's selection is negated; every other entry is kept; the key set gains only the id |
| Quote.ToggleTwice | client/src/pages/Calculator.tsx:47-52 | toggling twice restores a present id, and an absent id comes back as an explicit false that still reads as unselected |
| Quote.ChosenMembers | client/src/pages/Calculator.tsx:71-77 | an item is exported iff it is listed and selected |
| Quote.SelectedIndices | client/src/pages/Calculator.tsx:71-77 | the indices of the selected items, strictly increasing, and an index is in it iff its item is selected |
| Quote.ChosenInOrder | client/src/pages/Calculator.tsx:71-77 | the exported items are the selected ones in list order: the `j`-th is the listed item at the `j`-th selected index, with its resolved price |
| Quote.ChosenAll | client/src/pages/Calculator.tsx:71-77 | with every listed item selected, every item is exported |
| Quote.ChosenAllPriced | client/src/pages/Calculator.tsx:95-102 | with every listed item selected, the export is the fully priced list |
| Calculator.ChosenTotal | client/src/pages/Calculator.tsx:71-77 | the loop's running total is the total of the exported items |
| Calculator.BasicBadgeIsExport | client/src/pages/Calculator.tsx:175-186 | for every selection and every prices, the basic badge equals the basic export's total |
| Calculator.OptimalExportTerms | client/src/pages/Calculator.tsx:95-102 | the optimal export total, term by term, counts alt-linux once |
| Calculator.OptimalBadgeOvercounts | client/src/pages/Calculator.tsx:206-221 | the optimal badge exceeds the optimal export's total by alt-linux's price whenever alt-linux is selected |
| Calculator.OptimalBadgeDiffers | client/src/pages/Calculator.tsx:210 | with only alt-linux selected at 48 600, the badge reads 97 200 while the export totals 48 600 |
| Calculator.OptimalBadgeCorrectedIsExport | client/src/pages/Calculator.tsx:206-221 | counting alt-linux once, the optimal badge equals the optimal export's total for every selection and prices |
| Calculator.Display | client/src/pages/Calculator.tsx:115-122 | nothing but a loading text while the catalog lacks the id; otherwise price times quantity when shown selected, else 0 |
| Calculator.DisplayVersusExport | client/src/pages/Calculator.tsx:72-121 | display and export agree on an id in the record; an absent id is displayed but not exported |
| Calculator.InitialAllSelected | client/src/pages/Calculator.tsx:24-45 | every entry of the initial record is set |
| Calculator.InitialCoversBasic | client/src/pages/Calculator.tsx:24-45 | every id of the basic list is in the initial record |
| Calculator.InitialCoversOptimal | client/src/pages/Calculator.tsx:24-45 | every id of the optimal list is in the initial record |
| Calculator.InitialCovers | client/src/pages/Calculator.tsx:24-45 | the initial record covers both lists and selects everything |
| Calculator.CalculatorPage.constructor | client/src/pages/Calculator.tsx:21-45 | the page starts with the initial record and no export running |
| Calculator.CalculatorPage.ToggleItem | client/src/pages/Calculator.tsx:47-52 | the record becomes `Toggle` of the old one, and the running export is kept |
| Calculator.CalculatorPage.StartDownload | client/src/pages/Calculator.tsx:54-105 | the proposal holds the variant, exactly the chosen items and their total; the running flag is set |
| Calculator.CalculatorPage.FinishDownload | client/src/pages/Calculator.tsx:108-110 | the flag is cleared and the record kept |
| Calculator.ExportTotal | client/src/pages/Calculator.tsx:54-105 | the exported total is the sum of price times quantity over the exported items |
| ProposalDialog.ListFacts | client/src/components/ProposalConfigDialog.tsx:19-45 | the basic list has nine items and no fixed price; the optimal list has thirteen, three with fixed prices adding up to 2 450 000 |
| ProposalDialog.SameListsAsCalculator | client/src/components/ProposalConfigDialog.tsx:19-45 | the dialog's two lists carry the same ids, quantities, categories and fixed prices as the calculator's export lists |
| ProposalDialog.Offer | client/src/components/ProposalConfigDialog.tsx:57-63 | one variant holds every listed item in list order, each priced fixed price, else catalog price, else 0, and its total is the sum of price times quantity |
| ProposalDialog.OfferIsFullExport | client/src/components/ProposalConfigDialog.tsx:56-74 | the dialog's offer equals the calculator's export of the same variant when every item is selected |
| ProposalDialog.Variants | client/src/components/ProposalConfigDialog.tsx:54-74 | one variant per checked box, basic first, each the offer of its variant, and no variant whose box is clear |
| ProposalDialog.Dialog.constructor | client/src/components/ProposalConfigDialog.tsx:48-50 | the dialog starts closed with both variants checked |
| ProposalDialog.Dialog.SetOpen | client/src/components/ProposalConfigDialog.tsx:81 | opening or closing changes only the open flag |
| ProposalDialog.Dialog.SetIncludeBasic | client/src/components/ProposalConfigDialog.tsx:102-106 | the basic check box sets only the basic flag |
| ProposalDialog.Dialog.SetIncludeOptimal | client/src/components/ProposalConfigDialog.tsx:121-125 | the optimal check box sets only the optimal flag |
| ProposalDialog.Dialog.HandleDownload | client/src/components/ProposalConfigDialog.tsx:53-78 | reachable only with a box checked; collects the chosen variants, hands `{variants}` to the exporter, which rejects, so the dialog stays open and nothing is saved |
| ProposalDialog.Dialog.HandleDownloadEach | client/src/components/ProposalConfigDialog.tsx:76-77 | the intended handler: every chosen variant is saved through the single-variant input and the dialog closes |
| ProposalDialog.ExportEach | client/src/components/ProposalConfigDialog.tsx:76 | one saved document per variant, in order, each the single-variant export of that variant |
| ProposalDialog.ExportOne | client/src/lib/generateDocxProposal.ts:140-141 | a single variant is saved as its document under the variant's file name |
| ProposalDialog.BothVariantsExported | client/src/components/ProposalConfigDialog.tsx:76-77 | with both boxes checked the intended handler saves two files whose names differ by variant, where the handler as written saves none |
| DocxProposal.ItemRows | client/src/lib/generateDocxProposal.ts:28-39 | one row per item, in item order, each the item's row |
| DocxProposal.TableRows | client/src/lib/generateDocxProposal.ts:41-78 | the header row first, then the item rows in item order, then the total row |
| DocxProposal.ColumnsOfFour | client/src/lib/generateDocxProposal.ts:41-78 | a four-cell row covers the sum of its cells' spans, and its widths add up from the cells that set one |
| DocxProposal.TableShape | client/src/lib/generateDocxProposal.ts:41-78 | every row of the table covers the four columns; the header cells are bold, shaded E0E0E0, and their widths add up to 100 % |
| DocxProposal.ItemRowReadsBack | client/src/lib/generateDocxProposal.ts:32-35 | an item row reads back as its item: the name, the quantity its centred cell spells, the formatted unit price and line amount |
| DocxProposal.TotalIsGiven | client/src/lib/generateDocxProposal.ts:67-77 | the total row shows the total the caller hands in, whatever the items |
| DocxProposal.VariantHeading | client/src/lib/generateDocxProposal.ts:113 | the heading names the basic variant exactly for `basic` and the optimal one exactly for `optimal` |
| DocxProposal.FileName | client/src/lib/generateDocxProposal.ts:141 | the file name starts with `Commercial_Proposal_<variant>_` and ends with `.docx` |
| DocxProposal.FileNameDate | client/src/lib/generateDocxProposal.ts:141 | for an ISO timestamp `<date>T<time>` the file name carries exactly the date |
| DocxProposal.Generate | client/src/lib/generateDocxProposal.ts:26-141 | the call rejects exactly when it is handed `{variants}` instead of a single variant, and a saved document carries the variant's file name |
| DocxProposal.DocumentLayout | client/src/lib/generateDocxProposal.ts:80-138 | the document holds exactly one table, right after the variant heading, followed by the terms heading, four terms and the signature |
| Specs.Times | client/src/pages/Specs.tsx:125 | a multiplied catalog term is the price times the factor for a listed id and 0 for a missing one |
| Specs.HeadlinesSplit | client/src/pages/Specs.tsx:120-225 | each card's headline equals the sum of its hardware, software and implementation subtotals |
| Specs.OptimalHeadlineIgnores | client/src/pages/Specs.tsx:180-192 | the optimal headline does not change when a catalog entry it does not read changes |
| Specs.ModulesExcluded | client/src/pages/Specs.tsx:180-192 | the AI modules are not among the ids the optimal headline reads |
| Specs.EmptyCatalog | client/src/pages/Specs.tsx:120-192 | with an empty catalog both headlines are 0 |
| Specs.SpecsPage.constructor | client/src/pages/Specs.tsx:26-44 | the selection record starts as the page's initial record |
| Specs.SpecsPage.ToggleItem | client/src/pages/Specs.tsx:46-51 | toggling an id flips that id's entry and leaves the others |
| Variants.TotalsAreSpecsSubtotals | client/src/pages/Variants.tsx:20-34 | the basic total is the specification page's basic hardware plus software subtotals; the optimal total adds 2 450 000 for the modules; neither holds an implementation phase |
| Variants.EmptyCatalogTotals | client/src/pages/Variants.tsx:20-34 | with an empty catalog the basic total is 0 and the optimal total is the modules' 2 450 000 |
| Variants.OptimalAtLeastModules | client/src/pages/Variants.tsx:27-34 | with no negative price the optimal total is at least 2 450 000 |
| ROIChart.CapexIsVariantsPlusPhases | client/src/components/ROIChart.tsx:14-38 | each capital cost is the comparison page's total for its variant plus that variant's three implementation phases |
| ROIChart.ChartData | client/src/components/ROIChart.tsx:41-70 | the loop produces 25 points, months 0 to 24 in order, each the cumulative manual, basic and optimal cost of its month |
| ROIChart.SeriesMonotone | client/src/components/ROIChart.tsx:52-68 | with a non-negative volume and manual cost all three series are non-decreasing in the month |
| ROIChart.BreakEven | client/src/components/ROIChart.tsx:73-74 | the result is absent exactly when no point from the start qualifies, and otherwise is the month of the first qualifying point |
| ROIChart.BreakEvenIsLeastMonth | client/src/components/ROIChart.tsx:73-74 | on the chart the break-even month is the least month at which the manual cost reaches the variant's |
| ROIChart.Display | client/src/components/ROIChart.tsx:129 | the card prints '> 24 мес.' exactly when the break-even is absent or 0 |
| ROIChart.FreeVariantShownBeyond | client/src/components/ROIChart.tsx:129 | a basic capital cost of at most 0 breaks even at month 0, which the card prints as '> 24 мес.' |
| ROIChart.EmptyCatalogBasicCapex | client/src/components/ROIChart.tsx:14-24 | an empty catalog makes the basic capital cost 0 |
| ROIChart.OptimalNeverMonthZero | client/src/components/ROIChart.tsx:26-38 | with no negative price the optimal capital cost is at least 2 450 000 and the optimal break-even is never month 0 |
| ROIChart.NoBreakEvenWithin | client/src/components/ROIChart.tsx:52-74 | a basic capital cost above 24 months of savings leaves no break-even, printed '> 24 мес.' |
| ROIChart.BasicGap | client/src/components/ROIChart.tsx:54-57 | the manual cost exceeds the basic cost at month j by j months of savings less the capital cost |
| ROIChart.DefaultSaving | client/src/components/ROIChart.tsx:10-11 | with the default sliders the basic variant saves 240 000 a month, 5 760 000 over the chart |
| ROIChart.ReferenceLines | client/src/components/ROIChart.tsx:191-192 | at most one line is drawn, exactly when the basic break-even is shown as a month, and at that month |
| ROIChart.OptimalDrawsNoLine | client/src/components/ROIChart.tsx:191-192 | the optimal break-even has no effect on the lines drawn |
| ROICalculator.Tenths | client/src/components/ROICalculator.tsx:66 | the result lies within half a tenth of the input |
| ROICalculator.Payback | client/src/components/ROICalculator.tsx:61-66 | no payback exactly when the savings are 0; otherwise the investment over monthly savings, to a tenth |
| ROICalculator.Roi | client/src/components/ROICalculator.tsx:68-73 | the three-year ROI is three years of savings against the investment plus two years of 10 % maintenance, rounded |
| ROICalculator.SavingsBounds | client/src/components/ROICalculator.tsx:113-156 | within the sliders' ranges the savings lie between 240 000 and 915 000 000, so the payback is finite and at least a tenth of a month |
| ROICalculator.Calculator.constructor | client/src/components/ROICalculator.tsx:13-28 | the calculator starts at the initial inputs and the optimal tier, with outputs matching them |
| ROICalculator.Calculator.CalculateROI | client/src/components/ROICalculator.tsx:30-74 | the outputs become those of the current inputs and the inputs are kept |
| ROICalculator.Calculator.SetInputs | client/src/components/ROICalculator.tsx:76-78 | after a slider or tab change the outputs again match the inputs |
| ROICalculator.Defaults | client/src/components/ROICalculator.tsx:13-28 | with the initial inputs and the optimal tier the savings are 30 750 000, the payback 8.4 months and the ROI 256 % |
| Configurator.Recommend | client/src/components/Configurator.tsx:25-33 | the optimal variant exactly when the volume is high or high availability is required, the basic one exactly when neither |
| Configurator.Next | client/src/components/Configurator.tsx:17-33 | step 1 moves to step 2; step 2 moves to step 3 with the recommendation for the answers; any other step is left as it is; the answers are kept and validity is preserved |
| Configurator.ResultAfterTwoClicks | client/src/components/Configurator.tsx:17-33 | two clicks on "Далее" from any valid state reach the result and further clicks change nothing |
| Configurator.RecommendationFromAnswers | client/src/components/Configurator.tsx:12-33 | from the start, the answers given on steps 1 and 2 decide the recommendation shown on step 3 |
| Configurator.ConfiguratorPage.constructor | client/src/components/Configurator.tsx:12-15 | the wizard starts at step 1 with low volume, no high availability and no recommendation |
| Configurator.ConfiguratorPage.HandleNext | client/src/components/Configurator.tsx:17-33 | the page moves to the next state of the wizard and stays valid |
| Configurator.ConfiguratorPage.SetVolume | client/src/components/Configurator.tsx:65-80 | the volume radio group changes only the volume |
| Configurator.ConfiguratorPage.SetHa | client/src/components/Configurator.tsx:95-110 | the availability radio group changes only the availability answer |
| Configurator.ConfiguratorPage.Reset | client/src/components/Configurator.tsx:35-40 | reset restores the initial state |
| Demo.Pick | client/src/pages/Demo.tsx:17 | for a draw in [0, 1) the index is a valid mock file index, the floor of three times the draw |
| Demo.StartUpload | client/src/pages/Demo.tsx:14-25 | a click starts processing at progress 0 with the interval running and one of the mock file names |
| Demo.Tick | client/src/pages/Demo.tsx:25-34 | below 100 a tick adds 2; at 100 or more it shows the result at 100 and stops the interval; with no interval nothing changes; the file name is kept |
| Demo.ProcessingTicks | client/src/pages/Demo.tsx:25-34 | after n ticks, for n up to 50, a fresh run is still processing at 2 n % |
| Demo.ResultOnTick51 | client/src/pages/Demo.tsx:25-34 | a fresh run shows the result exactly on the 51st tick, at 100 with the interval stopped |
| Demo.ReachableKept | client/src/pages/Demo.tsx:14-41 | starting a run, each tick and the initial state keep the progress even and within 0 to 100, with the interval running exactly while processing |
| Demo.LitCount | client/src/pages/Demo.tsx:93-96 | at most four stage lines, and line k is lit exactly when k is at most the count |
| Demo.LitMonotone | client/src/pages/Demo.tsx:93-96 | stage lines only light up as the progress grows |
| Demo.DemoPage.constructor | client/src/pages/Demo.tsx:10-12 | the page starts on the upload screen with progress 0 and no file |
| Demo.DemoPage.HandleUpload | client/src/pages/Demo.tsx:14-25 | the page moves to the start of a run |
| Demo.DemoPage.IntervalTick | client/src/pages/Demo.tsx:26-33 | the page moves by one tick |
| Demo.DemoPage.ResetDemo | client/src/pages/Demo.tsx:37-41 | the page returns to the initial screen; a still running interval is not stopped |
| VideoPlayer.Settle | client/src/components/VideoPlayer.tsx:57-59 | the progress resets to 0 when the frame or the playing flag changed, and the other fields are the new ones |
| VideoPlayer.FrameTick | client/src/components/VideoPlayer.tsx:36-55 | while playing, the frame advances with the progress reset, and at the last frame playback stops without moving; when paused nothing changes |
| VideoPlayer.FrameProgress | client/src/components/VideoPlayer.tsx:65 | the progress lies in 0 to 100, is 100 exactly from 3 000 ms on, and is otherwise proportional to the elapsed time |
| VideoPlayer.ProgressTick | client/src/components/VideoPlayer.tsx:61-70 | while playing only the progress changes, to the frame progress of the elapsed time; when paused nothing changes |
| VideoPlayer.PlayPause | client/src/components/VideoPlayer.tsx:73-80 | the playing flag flips, the details close and the progress resets; paused at the last frame it starts over from frame 0 |
| VideoPlayer.Replay | client/src/components/VideoPlayer.tsx:92-96 | the player is at frame 0 and playing, the progress reset unless it already was |
| VideoPlayer.OpenDetails | client/src/components/VideoPlayer.tsx:208-212 | playback stops, the details open and the frame is kept |
| VideoPlayer.CloseDetails | client/src/components/VideoPlayer.tsx:137 | only the details close |
| VideoPlayer.ValidKept | client/src/components/VideoPlayer.tsx:36-96 | every transition keeps the frame among the four, the progress a percentage and a paused player's progress 0 |
| VideoPlayer.BarWidth | client/src/components/VideoPlayer.tsx:187 | the bar shows the progress while playing; when paused it is full exactly at the last frame |
| VideoPlayer.PlaysThrough | client/src/components/VideoPlayer.tsx:36-55 | from frame 0 the player shows frames 1, 2 and 3 on the next three ticks and stops at frame 3 on the fourth |
| VideoPlayer.PlayerView.constructor | client/src/components/VideoPlayer.tsx:27-30 | the player starts at frame 0, paused, with no progress and no details |
| VideoPlayer.PlayerView.Settled | client/src/components/VideoPlayer.tsx:57-59 | the view takes the settled state |
| VideoPlayer.PlayerView.OnFrameTimer | client/src/components/VideoPlayer.tsx:38-47 | the view takes one frame tick |
| VideoPlayer.PlayerView.OnProgressTimer | client/src/components/VideoPlayer.tsx:63-67 | the view takes one progress tick |
| VideoPlayer.PlayerView.HandlePlayPause | client/src/components/VideoPlayer.tsx:73-80 | the view takes the play/pause transition |
| VideoPlayer.PlayerView.HandleReplay | client/src/components/VideoPlayer.tsx:92-96 | the view takes the replay transition |
| VideoPlayer.PlayerView.ShowDetails | client/src/components/VideoPlayer.tsx:208-212 | the view takes the open-details transition |
| VideoPlayer.PlayerView.HideDetails | client/src/components/VideoPlayer.tsx:137 | the view takes the close-details transition |
| Gantt.CurrentTasks | client/src/components/GanttChart.tsx:154 | the basic list exactly for the basic selection, the optimal list for every other selection, and never the module-level list |
| Gantt.TotalMonths | client/src/components/GanttChart.tsx:155 | 4 months exactly for the basic selection, 6 for every other |
| Gantt.TilesCover | client/src/components/GanttChart.tsx:68-151 | tiled tasks lie within the range, each ends before the next begins, and every month of the range falls in one of them |
| Gantt.OneTaskPerMonth | client/src/components/GanttChart.tsx:68-151 | with tiled tasks each month belongs to exactly one task |
| Gantt.ListsTile | client/src/components/GanttChart.tsx:68-155 | the basic tasks tile months 1 to 4, the optimal ones months 1 to 6, and the list on screen tiles the months on screen |
| Gantt.LastTaskEnds | client/src/components/GanttChart.tsx:68-151 | the last task ends in month 4 for basic and month 6 for optimal |
| Gantt.BarInside | client/src/components/GanttChart.tsx:207-210 | a task within the timeline draws a bar of positive width from the left edge onwards, ending at its last month's share of the chart, inside the right edge |
| Gantt.BarsTouch | client/src/components/GanttChart.tsx:207-210 | each bar of consecutive tiled tasks begins where the previous one ends |
| Gantt.ShownBarsInside | client/src/components/GanttChart.tsx:186-210 | every bar drawn, for any selection, lies inside the chart |
| Gantt.GanttView.constructor | client/src/components/GanttChart.tsx:64 | no task is hovered at first |
| Gantt.GanttView.Enter | client/src/components/GanttChart.tsx:190 | entering a task makes it the active one, whose panel is open |
| Gantt.GanttView.Leave | client/src/components/GanttChart.tsx:191 | leaving clears the active task |
| Gantt.OnePanelOpen | client/src/components/GanttChart.tsx:229-233 | task ids are distinct in each list, so at most one details panel is open |
| Roadmap.SharedIds | client/src/pages/Roadmap.tsx:10-80 | each variant has three phases, and both lists use the same ids in the same order |
| Roadmap.ToggleActsOnBothTabs | client/src/pages/Roadmap.tsx:84-91 | expanding a phase in one tab expands the phase at the same position in the other tab, and no other phase changes |
| Roadmap.NoneExpandedInitially | client/src/pages/Roadmap.tsx:84 | at first no phase is expanded |
| Roadmap.ShownPhases | client/src/pages/Roadmap.tsx:180-206 | the tabs render nothing for the 'all' selection, the basic phases for 'basic' and the optimal phases for 'optimal' |
| Roadmap.InitialShowsNoPhase | client/src/pages/Roadmap.tsx:180 | with the provider's initial selection the roadmap shows no phase |
| Roadmap.ShownPhasesCorrected | client/src/pages/Roadmap.tsx:180 | the intended tab: three phases, basic exactly for 'basic', optimal for any other selection |
| Roadmap.CorrectedAlwaysShowsPhases | client/src/pages/Roadmap.tsx:180 | with the correction every selection shows three phases, the initial one the optimal roadmap, and the explicit selections are unchanged |
| Roadmap.RoadmapPage.constructor | client/src/pages/Roadmap.tsx:84 | no phase is expanded at first |
| Roadmap.RoadmapPage.TogglePhase | client/src/pages/Roadmap.tsx:86-91 | a click flips the phase's entry and leaves the others |
| PdfProposal.Binary | client/src/lib/generateProposal.ts:25-31 | the string has one character per byte, each character's code the byte's value |
| PdfProposal.BinaryRoundTrip | client/src/lib/generateProposal.ts:25-31 | reading the string back as bytes gives the original bytes: none is lost or changed |
| PdfProposal.ArrayBufferToBinary | client/src/lib/generateProposal.ts:26-31 | the loop builds exactly the one-character-per-byte string |
| PdfProposal.LoadFonts | client/src/lib/generateProposal.ts:50-75 | the family is Roboto exactly when the regular font loaded and the bold fetch did not throw; without the regular font nothing is registered and helvetica stays; a missing bold file falls back to the regular one; a throwing bold fetch leaves bold unregistered |
| PdfProposal.TableBody | client/src/lib/generateProposal.ts:108-119 | one row per item in item order, then the total row labelled ИТОГО: over three columns with the formatted total |
| PdfProposal.TableIsFourWide | client/src/lib/generateProposal.ts:108-124 | the header has four columns and every body row fills exactly four |
| PdfProposal.TotalAsGiven | client/src/lib/generateProposal.ts:116-119 | the total cell prints the total as given, whatever the items |
| PdfProposal.SameItemCellsAsDocx | client/src/lib/generateProposal.ts:108-113 | each item row holds the same texts in the same places as the DOCX exporter's item row |
| PdfProposal.SameTotalCellsAsDocx | client/src/lib/generateProposal.ts:116-119 | the total row carries the same label over three columns and the same amount as the DOCX exporter's |
| PdfProposal.Terms | client/src/lib/generateProposal.ts:154-159 | four terms in order, worded as the DOCX exporter words them |
| PdfProposal.PlaceTerms | client/src/lib/generateProposal.ts:161-168 | the k-th term is drawn 10 + 7 k below the heading, and the signature 20 below where the loop ends |
| PdfProposal.OrDefault | client/src/lib/generateProposal.ts:84 | the given value when present, otherwise the fallback |
| PdfProposal.GenerateProposal | client/src/lib/generateProposal.ts:44-175 | the document uses Roboto exactly when the fonts loaded; title, subtitle and file name fall back to their defaults; the date line, head and body are as built; the four terms sit 30 + 7 k below the table's end and the signature 78 below it |
| PdfProposal.CalculatorDownload | client/src/pages/Calculator.tsx:54-105 | for the proposal `StartDownload` builds, the document has one body row per selected item, in order with its name, quantity and price, plus the total row, whose amount is the passed loop total and equals the sum of price times quantity over those items; it saves under the default file name |

## Left out

- Rendering, styling, animation and routing are left out. So are the pages and components without computation: `Home.tsx`, `Vendors.tsx`, `Risks.tsx`, `ArchitectureDiagram.tsx`, `Layout.tsx`, `App.tsx` and the text blocks of `Specs.tsx`.
- `VariantContext.tsx` is kept only as its selection type and its initial value `'all'`. The error `useVariant` throws outside the provider cannot arise in the app, since every page sits under the provider.
- Timers (`setInterval`, `clearInterval`), `Math.random`, `Date.now`, `new Date()` and the `lastUpdated` / `lastUpdate` timestamps are out of the model. Ticks are explicit operations, and the chosen key, the fluctuation, the elapsed time, the random draw and the date texts are parameters.
- `Intl.NumberFormat`, `formatPrice`, `formatCurrency`, date-fns and `toLocaleDateString` are function or string parameters. The model states which values are passed in, not how they are printed.
- `Pricing.NewPrice`, `ROICalculator`, `VideoPlayer.FrameProgress` and the `Gantt` percentages use exact integers and reals. `Infinity` appears only as the payback's `None` (`ROICalculator.Payback`); `NaN` and IEEE double rounding are not replicated; a missing price reads as 0, as `|| 0` makes it.
- ROICalculator.Tenths: states only that the result lies within half a tenth of its argument, not that it is a whole number of tenths, because `toFixed` on doubles is not modelled.
- The three fraud values `fraudLosses`, `estimatedFraudLoss` and `fraudSavings` in `ROICalculator.tsx` are computed and never read, so they are not modelled. Only the term added to the savings is.
- Quote item display names are out of the hard-coded item lists (`Quote`, `Calculator`, `ProposalDialog`), whose long literals made every proof touching them too expensive. The exporters take the names through a `name` function parameter.
- ProposalV14.BudgetTable: the total row's cells are plain strings; the bold runs of its label and amount (generate_proposal_v14.py:159-160) are not modelled.
- CellBorder: generate_proposal_v13.py defines `set_cell_border` but never calls it (line 34 is the usage example in its docstring), so the model proves the helper's behaviour, not the borders of any generated document.
- ProposalV15.PdfWriter.ChapterTitle: the font size and text colour are not recorded, and `ln(4)` is an empty line whatever its height.
- The description chapter of generate_proposal_v15.py (its `chapter_title` and `chapter_body`, lines 72-78) and the terms chapter with its four lines (lines 124-133) are fixed text and are not modelled; `multi_cell` is not modelled either.
- `Specs.PriceDisplay` is never rendered, and its rule is the calculator's (`Calculator.Display`), so it has no member of its own.
- Drawing is not modelled: jsPDF, jspdf-autotable, the PDF page footer callback and colours, fpdf header and footer callbacks, and the docx `Packer` with `saveAs`. So are `fetch` bodies beyond their bytes and `window.btoa`: the model stops at the one-character-per-byte string `btoa` is given.
- The DOCX exporter's fixed paragraphs appear by role (`DocxProposal.FixedText`) with their wording. Heading levels, spacing and alignment of the non-table paragraphs are not modelled.
- Speech synthesis, the mute and subtitle toggles and the captions of `VideoPlayer.tsx` are not modelled: they change nothing the model states.
- The Gantt task titles, descriptions and details and the roadmap phase texts and deliverables are left out. The model keeps ids, months and durations.
- Demo.DemoPage.ResetDemo: the interval is not cleared by `resetDemo`, and the model keeps the running flag as it was. A tick after a reset mid-run is modelled, but not the several intervals a repeated upload can start.
- Python's `int()` is modelled on plain decimal digits. The signs, surrounding whitespace and underscores it also accepts are left out, because the file names and cells it reads hold none.
- Paragraph and cell text assignments (`paragraph.text = …`, `cell.text = …`) flatten the runs into one and drop their formatting; the model keeps only the text.
- Documents are values. python-docx's object identity, aliasing between a row and its parent table and merged-cell repetition in `row.cells` are not modelled.
- The `replacements` lists in `update_server_qty.py` and `replace_switches.py`, and the replace helpers in `remove_storage.py` and `update_switch_qty.py`, are never applied by their scripts. The scripts are modelled without them, and `Docx` models the shared helpers once.
- `get_or_add_tcPr` and the rest of python-docx's XML layer beyond the cell-border element list are not modelled.
- File paths, loading, saving, `print` output and `exit(1)` in the Python scripts are left out. `PlanUpdate.LatestBy` reports the no-candidate and `int`-raises cases as results.
- `update_proposal.py`, `add_integration_module.py`, `verify_docx.py` and `vite.config.ts` are not part of this model: they only append fixed paragraphs, print, or configure the build.
- No multi-variant DOCX layout is modelled, because the code has only the single-variant exporter.

## Findings

| source | as written | input that shows it | evidently intended | confidence | as-written member | corrected member |
|---|---|---|---|---|---|---|
| client/src/pages/Calculator.tsx:210 | the optimal badge multiplies alt-linux's price by 2, while the optimal export lists it with quantity 1 | only alt-linux selected, at 48 600: the badge reads 97 200 and the exported proposal totals 48 600 | the badge shows the total of the proposal the button downloads | not executed | Calculator.OptimalBadgeOvercounts | Calculator.OptimalBadgeCorrectedIsExport |
| client/src/components/ProposalConfigDialog.tsx:76-77 | `handleDownload` passes `{variants}` to the exporter, which reads `data.items` and `data.variant` (client/src/lib/generateDocxProposal.ts:66), so the promise rejects, no file is saved and the dialog stays open | both boxes checked (the initial state) and a click on the download button | each chosen variant is exported as its own document and the dialog then closes | not executed | ProposalDialog.Dialog.HandleDownload | ProposalDialog.Dialog.HandleDownloadEach |
| client/src/pages/Roadmap.tsx:180 | the tabs are controlled by the shared selection, whose initial value is 'all' (client/src/contexts/VariantContext.tsx:13); no tab has that value, so neither tab's content is shown and the `defaultValue` fallback has no effect | opening the roadmap before any page has set a variant | the optimal roadmap is shown for any selection other than 'basic', as the Gantt chart does | not executed | Roadmap.InitialShowsNoPhase | Roadmap.CorrectedAlwaysShowsPhases |
