# EstoqueObras, modelled in Dafny

EstoqueObras is a small React Native app for running building sites. It keeps
three lists on the device:

- materials with their stock, minimum stock and unit price;
- work sites (obras), which are active or archived;
- stock movements (movimentações), each `saida` (out to a site) or `entrada` (in).

This project models the app's data store and the rules its screens apply to
the store, and proves what those rules promise.

- **DataService** (`data_service.dfy`). The store is a class with the three
  lists, the loading flag and what each storage key holds. Its methods:
  - create prepends a stamped record;
  - update merges fields into records whose id matches under `===`;
  - delete filters those records out;
  - recording a movement adjusts the first material it names;
  - the initial load falls back to the sample data when a key is absent;
  - reset restores the sample data.

  Record building, the JSON round trip and id freshness are proved as lemmas.
- **MovimentacaoForm**, **MaterialForm**, **WorkForm**: the form screens' state
  (classes where the screen holds state), their validators, their payloads and
  their submit paths into the store.
- **Obras**, **Materiais**, **Historico**: the list screens as filters and a
  sort. The lemmas state subsequence, permutation, order and stability
  properties, and the exact membership of each list.
- **Dashboard**: the summary cards and the per-site dictionary. The
  dictionary is an insertion-ordered sequence of entries, filled by a loop
  proved against a fold. Its keys and values are characterised by lemmas.
- **StatsCard**: the icon-name normalisation `pascalCase`, the displayed value
  and the gradient choice.
- **ThemeContext**: the light and dark themes, and a provider class holding the
  theme name. The provider restores the stored preference and toggles the theme.

Shared modules:

- `JsValue`: JavaScript values and the operators the code uses:
  - truthiness, `||` and `===`;
  - `parseFloat`, `Number` and `trim`;
  - object spread as map union and JSON serialisation.
- `JsText` and `JsNumber`: text and decimal literals.
- `Seqs`: `filter` and its laws.
- `Reading`: chooses between the code as written and the behaviour it
  evidently intends, where the two differ (see Findings).

JavaScript numbers are exact reals plus NaN. An ISO timestamp is kept as the
instant it names. `Date.now()` is the parameter `now`. Device storage is a
field holding the list last written under each key.

The code and the wider design disagree in a few places; the model follows the
code:

- The site picker of the movement form is hidden for `entrada`, but the site
  id chosen before switching stays in the form. Such a movement is named after
  that site, not "Estoque" (`MovimentacaoForm.EntradaKeepsSite`).
- The unit picker offers `un, m², m³, L, kg`, but `validate` accepts any
  non-blank unit. The sample data uses `sacos`, `unid` and `barras`
  (`MaterialForm.RequiredMessages`).
- Ids are `prefix + Date.now()`. A new id is distinct from the others only
  when it is not already a record's id (`DataService.StampedKeepsDistinct`
  requires that). The sample ids `mat1`..`mat4`, `obra1`..`obra3`, `mov1` and
  `mov2` are themselves such stamps, of the readings 1 to 4, so a reading of
  1 collides with a sample id. When every id is a stamp of a reading before
  `now`, the id stamped at `now` is new (`DataService.ClockFresh`), and the
  list stays that way for every later reading (`DataService.StampedStaysBefore`),
  as it does after an edit that keeps the id (`DataService.UpdatedStampedBefore`)
  and after a delete (`DataService.DeletedStampedBefore`). The sample data meets this for every reading past 4
  (`DataService.MocksStampedBefore`).

## Model

| member | source | states |
|---|---|---|
| DataService.MocksClean | src/context/DataService.js:4-85 | the sample materials, sites and movements hold no NaN and no undefined, so JSON keeps them exactly |
| DataService.SaveThenRestore | src/context/DataService.js:113-119 | a list free of NaN and undefined that was written to a key is read back unchanged at the next start |
| DataService.RestoreStable | src/context/DataService.js:113-119 | what a start loads, written back and loaded again, is the same lists: for an absent key (sample data) and for one that holds a list |
| JsValue.JsonListIdempotent | src/context/DataService.js:132 | serialising and parsing a list twice gives what doing it once gives |
| JsValue.JsonListClean | src/context/DataService.js:132 | a list free of NaN and undefined survives the JSON round trip unchanged |
| DataService.Stamped | src/context/DataService.js:139-143 | the new record has the data's keys plus `id` and `created_date`; the id is the prefix followed by the clock's decimal digits and the date is the instant; these override any id or date in the data; every other field is the data's |
| DataService.NewObra | src/context/DataService.js:163-168 | a new site is stored as "ativa" whatever status it came with, with a fresh `obra` id and the creation instant; its other fields are the data's |
| DataService.Updated | src/context/DataService.js:151 | same length; exactly the records whose id is `===` the given id get the data's fields over their own, the others are untouched; with no match the list is unchanged |
| DataService.Deleted | src/context/DataService.js:157 | exactly the records with the id are removed, the rest stay in their order, and the number removed is the number of matches |
| DataService.FindFirst | src/context/DataService.js:194 | `find` gives the first position whose record has the id, or none when no record has it |
| DataService.Adjusted | src/context/DataService.js:196-200 | `saida` gives stock minus the parsed quantity, `entrada` stock plus it, any other type leaves the stock; an unparsable quantity gives NaN |
| DataService.SaidaBelowZero | src/context/DataService.js:199 | taking out more than is in stock leaves a negative quantity: the store has no floor |
| MovimentacaoForm.AdjustedByType | src/context/DataService.js:196-200 | for the form's two types on numbers, `saida` subtracts the quantity from the stock and `entrada` adds it |
| DataService.MovedStock | src/context/DataService.js:194-203 | every material with the movement's `material_id` gets the quantity adjusted from the first such material's stock, and the others are untouched; with no such material the list is unchanged |
| DataService.DeletedThenMoved | src/context/DataService.js:194-195 | a movement naming a material deleted earlier leaves the materials unchanged: the dangling reference is kept and ignored |
| JsNumber.DecimalInjective | src/context/DataService.js:141 | different clock readings give different id digits |
| DataService.StampedKeepsDistinct | src/context/DataService.js:141 | prepending a stamped record whose new id is not already a record's id keeps all ids distinct |
| DataService.ClockFresh | src/context/DataService.js:141 | when every id is the prefix followed by a reading before `now`, no record has the id stamped at `now` |
| DataService.StampedStaysBefore | src/context/DataService.js:138-144 | after creating a record at `now`, every id is a stamp of a reading before any later reading |
| DataService.MocksStampedBefore | src/context/DataService.js:6-74 | the sample ids are the stamps of the readings 1 to 4, so they all precede any reading past 4 |
| DataService.UpdatedKeepsDistinct | src/context/DataService.js:151 | an update whose data carries no `id`, or the matched id itself (as both edit forms send), keeps ids distinct |
| DataService.UpdatedKeepsIds | src/context/DataService.js:151 | such an update leaves every record's id as it was |
| DataService.UpdatedStampedBefore | src/context/DataService.js:150-154 | such an update keeps every id a stamp of a reading before `now`, so the next creation is still fresh |
| DataService.DeletedStampedBefore | src/context/DataService.js:156-160 | deleting keeps every id a stamp of a reading before `now` |
| DataService.DeletedKeepsDistinct | src/context/DataService.js:157 | deleting keeps ids distinct |
| DataService.ContextList | src/context/DataService.js:242-257 | the context's list properties are exactly `materials`, `obras` and `movimentacoes`; any other name reads as undefined |
| DataService.DataStore.constructor | src/context/DataService.js:97-100 | a fresh start has empty lists and is loading, over whatever the device holds |
| DataService.DataStore.Load | src/context/DataService.js:102-128 | each list becomes what its key holds, or the sample data when the key is absent; a failed read sets nothing; loading ends either way |
| DataService.DataStore.CreateMaterial | src/context/DataService.js:138-148 | returns the stamped record; the new list is that record followed by the old list; it is written; nothing else changes |
| DataService.DataStore.UpdateMaterial | src/context/DataService.js:150-154 | the materials become the merged list and are written; nothing else changes |
| DataService.DataStore.DeleteMaterial | src/context/DataService.js:156-160 | the materials lose exactly the matching records and are written; movements are untouched |
| DataService.DataStore.CreateObra | src/context/DataService.js:162-173 | returns the new active site; the new list is that site followed by the old list; it is written; nothing else changes |
| DataService.DataStore.UpdateObra | src/context/DataService.js:175-179 | the sites become the merged list and are written; nothing else changes |
| DataService.DataStore.DeleteObra | src/context/DataService.js:181-185 | the sites lose exactly the matching records and are written; nothing else changes |
| DataService.DataStore.CreateMovimentacao | src/context/DataService.js:187-209 | the stamped movement is prepended and written in every case; the materials become the moved stock, and they are written only when a material matched; sites are untouched |
| DataService.DataStore.ResetDatabase | src/context/DataService.js:211-240 | once the keys are cleared the lists are the sample data, whatever the prior state, and the keys written before any failed write hold it; a failed clear changes nothing; loading ends |
| DataService.ResetThenRestore | src/context/DataService.js:211-232 | after a reset that cleared the keys, the next start loads the sample data again, however many writes went through; the sample movements carry the reset's dates when their key was written and the next start's dates (taken at module load, DataService.js:71, 83) when it was not |
| MovimentacaoForm.ActiveObras | src/screens/MovimentacaoForm.js:32-35 | exactly the sites with status "ativa", in their original order |
| MovimentacaoForm.Selected | src/screens/MovimentacaoForm.js:37 | the selected material exists iff some material has the chosen id, and it is the first material with that id, as `find` returns |
| MovimentacaoForm.OrZero | src/screens/MovimentacaoForm.js:38-39 | with no material selected, the stock and unit value are 0; a falsy field also reads as 0 |
| MovimentacaoForm.ValorTotal | src/screens/MovimentacaoForm.js:49-52 | the parsed quantity times the unit value; an unparsable quantity counts as 0; with no material the total is 0 |
| MovimentacaoForm.StockCheckBounds | src/screens/MovimentacaoForm.js:63-67 | an `entrada` is never stock-checked; a quantity equal to the stock passes; a `saida` of a known material with more than its stock is rejected |
| MovimentacaoForm.Validate | src/screens/MovimentacaoForm.js:54-74 | one message per failed check: no material iff none chosen, no site iff a `saida` without one, bad quantity iff not a positive number, short stock iff the stock check fails; it returns true iff no message was collected |
| MovimentacaoForm.AcceptedIffValidAndStocked | src/screens/MovimentacaoForm.js:41-44 | `validate` accepts exactly the forms for which `isFormValid` holds (material chosen, quantity above 0, `entrada` or a site chosen) and the stock suffices |
| MovimentacaoForm.ObraNomeCases | src/screens/MovimentacaoForm.js:87-89 | a site id that names no active site gives "Estoque"; the first active site with the id gives its client name when it has one |
| MovimentacaoForm.FirstActiveMatch | src/screens/MovimentacaoForm.js:88 | the `find` among the active sites lands on the first active site with the id |
| MovimentacaoForm.EntradaKeepsSite | src/screens/MovimentacaoForm.js:81-89 | an `entrada` whose form still holds a site chosen earlier carries that site's id and name |
| MovimentacaoForm.Payload | src/screens/MovimentacaoForm.js:79-90 | the movement carries the form's ids, type, parsed quantity, note, total and the looked-up names |
| MovimentacaoForm.NewMov | src/screens/MovimentacaoForm.js:79-90 | a movement is built iff the chosen material exists (reading its name otherwise throws), and it is the payload for that material and site |
| MovimentacaoForm.PayloadFindsSelected | src/screens/MovimentacaoForm.js:80 | the store's lookup by the payload's material id finds the material the form selected |
| MovimentacaoForm.MovementMovesStock | src/screens/MovimentacaoForm.js:93 | recording a `saida` of q takes q from that material's stock, an `entrada` adds it |
| MovimentacaoForm.QuantityInput | src/screens/MovimentacaoForm.js:286 | the quantity input keeps exactly the digits and dots of the text: a character is in the result iff it is in the text and is a digit or a dot, a text of digits and dots alone is kept whole, the result is never longer, and filtering it again changes nothing |
| MovimentacaoForm.HandleSubmit | src/screens/MovimentacaoForm.js:76-105 | the movement reaches the store iff `validate` accepts and the material exists; the store then holds the new movement first and writes that list, holds the moved stock and writes it exactly when a material matched; otherwise no list and no stored copy changes; sites, their stored copy and the loading flag never change |
| MaterialForm.Validate | src/screens/MaterialForm.js:49-75 | the loop over the numeric fields computes exactly the verdict of the checks in order: messages collected, or a thrown TypeError |
| MaterialForm.ValidateThrows | src/screens/MaterialForm.js:51-63 | `validate` throws iff the name or unit is present but not text or, as written, a numeric field holds a number |
| MaterialForm.RequiredMessages | src/screens/MaterialForm.js:51-53 | the name message appears iff the name is missing or blank, the unit message likewise for the unit; any non-blank unit passes |
| MaterialForm.ValidateErrors | src/screens/MaterialForm.js:49-68 | without a throw: name and unit messages iff missing or blank; "not a number" for exactly the numeric fields that are blank or unparsable; "negative" for exactly those below 0, so 0 passes |
| MaterialForm.FieldMessages | src/screens/MaterialForm.js:61-67 | each numeric field gets at most one message, and it names that field |
| MaterialForm.MessageSource | src/screens/MaterialForm.js:49-68 | every message comes from the required checks or from a failed numeric check |
| MaterialForm.NumStepFails | src/screens/MaterialForm.js:62-66 | a numeric check fails as "not a number" iff parsing gives NaN, and as "negative" iff the value parses below 0 |
| MaterialForm.NumStepThrows | src/screens/MaterialForm.js:63 | as written, the check of a numeric field throws exactly when the field holds a number; read as intended it never throws |
| MaterialForm.NewFormNumbers | src/screens/MaterialForm.js:32-34 | the blank form's numeric fields add exactly one message: the empty unit value is not a number |
| MaterialForm.ValidatePasses | src/screens/MaterialForm.js:70-74 | `validate` returns true iff it collected no message, that is iff name and unit are filled and every numeric field parses to a number at least 0 |
| MaterialForm.Coerced | src/screens/MaterialForm.js:82 | `parseFloat(v) \|\| 0` is always a number: the parsed value or, when that is NaN or 0, 0 |
| MaterialForm.Submitted | src/screens/MaterialForm.js:80-85 | the submitted record is the form with exactly the three numeric fields replaced by their coerced values |
| MaterialForm.SubmittedIsParsed | src/screens/MaterialForm.js:80-85 | after `validate` passes, each saved number is what its field parsed to, never below 0 |
| MaterialForm.StoredKeepsNumbers | src/screens/MaterialForm.js:89-96 | created or merged into the edited record, the stored numeric fields are the submitted numbers |
| MaterialForm.NewForm | src/screens/MaterialForm.js:29-36 | a blank form has unit "un", quantity "0", minimum "0", an empty unit value and empty name and place |
| MaterialForm.NewFormFails | src/screens/MaterialForm.js:29-36 | a blank form fails validation, on its name and on its empty unit value |
| MaterialForm.NamedFormFails | src/screens/MaterialForm.js:63 | with a name typed in, only the empty unit value keeps a blank form from passing |
| MaterialForm.ValidEnablesSave | src/screens/MaterialForm.js:283 | a form `validate` accepts has the save button enabled once loading is over |
| MaterialForm.SpacedNameEnablesSave | src/screens/MaterialForm.js:283 | the save button is a weaker test than `validate`: a name of one space enables it and `validate` rejects it |
| MaterialForm.ResubmitThrows | src/screens/MaterialForm.js:63 | as written, a record holding its numbers as the store keeps them makes `validate` throw |
| MaterialForm.ResubmitPasses | src/screens/MaterialForm.js:63 | with the intended check, the stored record of an accepted form is accepted again |
| MaterialForm.IntendedAgrees | src/screens/MaterialForm.js:61-68 | wherever the code as written does not throw, the intended check gives the same messages |
| MaterialForm.MaterialScreen.constructor | src/screens/MaterialForm.js:24-37 | the form opens on the record being edited, or on the blank form |
| MaterialForm.MaterialScreen.HandleChange | src/screens/MaterialForm.js:45-47 | the named field takes the new value and every other field is unchanged |
| MaterialForm.MaterialScreen.HandleSubmit | src/screens/MaterialForm.js:77-107 | returns `validate`'s verdict; when it passes, the submitted record updates the edited material or is created, and the materials are written; otherwise the materials and their stored copy are unchanged; sites, movements, their stored copies and the loading flag never change |
| MaterialForm.MaterialScreen.HandleDelete | src/screens/MaterialForm.js:109-130 | confirming removes the edited material from the store and writes the list; cancelling changes nothing; sites, movements, their stored copies and the loading flag never change |
| WorkForm.NewForm | src/screens/WorkForm.js:86-95 | a new form has status "ativa", today's start date and every text field empty |
| WorkForm.EditForm | src/screens/WorkForm.js:73-85 | the edit form copies the site's fields, with an absent end date or note as "" and the area and value as text |
| WorkForm.ValueTextClean | src/screens/WorkForm.js:229-230 | the value input keeps exactly the digits, commas and dots of what was typed, and filtering its output again changes nothing |
| WorkForm.ValidateForm | src/screens/WorkForm.js:109-114 | the method builds exactly the flags of the two required fields, or throws when one is not text |
| WorkForm.FlagsMeaning | src/screens/WorkForm.js:109-114 | it throws iff client or place is not text; otherwise `nome_cliente` is flagged iff blank after trim, `local` likewise, no other key is flagged, and every flag is true |
| WorkForm.FlagsIgnoreOthers | src/screens/WorkForm.js:109-114 | no other field is checked: changing any other field leaves the flags as they were |
| WorkForm.NewFormFlagged | src/screens/WorkForm.js:86-95 | a new form, submitted untouched, flags both required fields |
| WorkForm.TextFields | src/screens/WorkForm.js:128-138 | the text fields of the payload are the form's client, place, start date, status and note, unchanged |
| WorkForm.ConvertedFields | src/screens/WorkForm.js:132-135 | the converted fields are the parsed area, the parsed value and the end date or null |
| WorkForm.Body | src/screens/WorkForm.js:130-137 | the payload's eight fields: text fields as the form holds them, area and value parsed, an empty end date as null |
| WorkForm.DataToSend | src/screens/WorkForm.js:128-138 | the payload has exactly the eight fields plus `id`, and `id` is there iff editing, holding the form's id |
| WorkForm.EmptyFieldsDefaults | src/screens/WorkForm.js:132-135 | an empty area is sent as 0, an empty value as 0 and an empty end date as null; a filled end date is sent as it is |
| WorkForm.CommaIsDecimalPoint | src/screens/WorkForm.js:133 | in a typed value "a,b" the first comma becomes the decimal point before parsing |
| WorkForm.EditAsWrittenChangesNothing | src/screens/WorkForm.js:142 | as written, `updateObra(dataToSend)` matches no site, so editing leaves the site list as it was |
| WorkForm.EditIntendedUpdates | src/screens/WorkForm.js:142 | with the id passed, the sites with the form's id get the payload's fields, keep their id, and the others are untouched |
| WorkForm.WorkScreen.constructor | src/screens/WorkForm.js:70-96 | the form opens on the site being edited or on a new form, with no flags |
| WorkForm.WorkScreen.HandleChange | src/screens/WorkForm.js:104-107 | the named field takes the new value and its flag is cleared; every other field and flag is unchanged |
| WorkForm.WorkScreen.HandleValueInput | src/screens/WorkForm.js:229-230 | the value field becomes the filtered text typed, with its flag cleared |
| WorkForm.WorkScreen.HandleSubmit | src/screens/WorkForm.js:116-156 | sends only when no field is flagged; otherwise it shows the flags and leaves the sites and their stored copy as they were; the flags change only when some are shown; a new site is prepended as created from the payload; an edit changes nothing as written and updates the site with the form's id as intended, and a sent form writes the sites; materials, movements, their stored copies and the loading flag never change |
| Obras.FilteredObras | src/screens/Obras.js:52-58 | tab "ativas" lists exactly the active sites and "arquivadas" exactly the archived ones; any other tab lists all; always an order-preserving subsequence |
| Obras.AllTabShowsAll | src/screens/Obras.js:52-58 | a tab other than the two named ones shows every site |
| Obras.TabCount | src/screens/Obras.js:117 | a counter is the number of sites with that status |
| Obras.CountsMatchTabs | src/screens/Obras.js:142 | each counter is the length of the list its tab shows |
| Obras.CountsPartition | src/screens/Obras.js:117 | the two counters and the sites with any other status add up to the whole list, so a site with another status is counted in neither |
| Obras.SetStatus | src/screens/Obras.js:32 | after a status update every site with that id has the new status and the others are unchanged |
| Obras.ArchivedMovesTab | src/screens/Obras.js:30-35 | archiving moves the site from the active tab to the archived tab |
| Obras.UnarchivedMovesTab | src/screens/Obras.js:46 | reactivating brings the site back under the active tab |
| Obras.ObrasScreen.constructor | src/screens/Obras.js:21-22 | the screen opens on tab "ativas" with nothing pending |
| Obras.ObrasScreen.SetTab | src/screens/Obras.js:97 | selecting a tab changes only the tab |
| Obras.ObrasScreen.HandleArchive | src/screens/Obras.js:28 | the archive button makes the site pending |
| Obras.ObrasScreen.ConfirmArchive | src/screens/Obras.js:30-35 | with a site pending, its status becomes "arquivada" in the store, the sites are written and the slot is cleared; with none pending the sites and their stored copy stay; materials, movements, their stored copies, the loading flag and the tab never change |
| Obras.ObrasScreen.HandleUnarchive | src/screens/Obras.js:37-50 | "Reativar" sets the site's status to "ativa" in the store and writes the sites; "Cancelar" leaves the sites and their stored copy; materials, movements, their stored copies and the loading flag never change |
| Materiais.FilteredIsConjunction | src/screens/Materiais.js:46-62 | the two chained filters are one filter by both tests, so the result is an order-preserving subsequence of exactly the materials passing both |
| Materiais.ListedIff | src/screens/Materiais.js:46-62 | a material is listed iff it passes the stock filter and, for a non-empty term, its lowercased name or place of purchase contains the lowercased term |
| Materiais.AllWithoutSearch | src/screens/Materiais.js:49-52 | the "all" filter with an empty term lists every material |
| Materiais.LowWithoutSearch | src/screens/Materiais.js:48 | the "low" filter lists exactly the materials with `quantidade <= estoque_minimo`, in order |
| Materiais.SearchIgnoresCase | src/screens/Materiais.js:52-58 | two search terms that lowercase to the same text (`cimento` and `CIMENTO`, say) list the same materials in the same order |
| Historico.SortedMovimentacoes | src/screens/Historico.js:131-137 | the sorted copy is a permutation of the movements, newest first |
| Historico.SortPermutes | src/screens/Historico.js:133-135 | the insertion sort only reorders |
| Historico.SortOrders | src/screens/Historico.js:133-135 | the sort puts newer movements first |
| Historico.SortStable | src/screens/Historico.js:133-135 | movements with the same instant keep their relative order |
| Historico.FilterKeepsOrder | src/screens/Historico.js:139-154 | filtering a newest-first list keeps it newest first |
| Historico.EmptyTermText | src/screens/Historico.js:141-146 | with an empty term a movement passes the text test iff one of material name, site name or note is present |
| Historico.FilteredMovimentacoes | src/screens/Historico.js:139-154 | newest first, a subsequence of the sorted list, and it holds exactly the movements passing the text test and both pickers ("all" or equal id) |
| Historico.CreatedIsDated | src/context/DataService.js:191 | every movement the store creates, and every sample movement, is dated, so the history can sort it |
| Dashboard.SafeMateriais | src/screens/Dashboard.js:20-23 | as written the context has no `materiais`, so the list is empty; read as intended it is the stored materials |
| Dashboard.SafeList | src/screens/Dashboard.js:23-25 | a missing list counts as empty |
| Dashboard.ListsDefault | src/screens/Dashboard.js:28-40 | the material count is the list's length (0 as written), `totalMovMes` counts every movement whatever its date, and the area total is the sum of the areas `parseFloat` reads |
| Dashboard.AreaSumReal | src/screens/Dashboard.js:35-38 | `totalMetragem` is always a number: the sum of the parsed areas, with unparsable ones as 0 |
| Dashboard.StockSumReal | src/screens/Dashboard.js:30-33 | with prices and stocks that are numbers or falsy, `totalEstoque` is the sum of unit price times stock, falsy ones as 0 |
| Dashboard.OrZero | src/screens/Dashboard.js:31 | `x \|\| 0` on a number or a falsy value is the number, or 0 |
| Dashboard.StockTermReal | src/screens/Dashboard.js:31 | one material's term is its unit price times its stock, with falsy ones as 0 |
| Dashboard.AreaTermReal | src/screens/Dashboard.js:36 | one site's term is its parsed area, or 0 when that is unparsable |
| Dashboard.AsWrittenStatsZero | src/screens/Dashboard.js:20 | as written the material count, stock value and alert count are all 0 whatever the store holds |
| Dashboard.AsWrittenNoAlerts | src/screens/Dashboard.js:43 | even on the stored list the as-written alert test finds nothing, since no stored material has `estoque_atual` |
| Dashboard.IntendedStats | src/screens/Dashboard.js:28-44 | read as intended, the cards count the stored materials, the alerts are exactly the low-stock list of the materials screen, and the stock value is the sum of price times quantity |
| Dashboard.AddMovement | src/screens/Dashboard.js:49-56 | the `forEach` callback leaves the dictionary exactly as one step of the fold does: unchanged without a site, otherwise the site's entry holds its previous total (started at 0 when falsy) plus the movement's value |
| Dashboard.ValoresPorObra | src/screens/Dashboard.js:47-60 | the loop builds exactly the fold of one step per movement over the dictionary |
| Dashboard.LookupAssignSame | src/screens/Dashboard.js:55-56 | reading a key just written gives the written value |
| Dashboard.LookupAssignOther | src/screens/Dashboard.js:55-56 | writing one key leaves every other key and its value as it was |
| Dashboard.AssignFinds | src/screens/Dashboard.js:55-56 | after a write the key is in the dictionary |
| Dashboard.PerSiteKeys | src/screens/Dashboard.js:50-57 | the dictionary's keys are exactly the truthy sites that some movement names |
| Dashboard.PerSiteIgnoresUnsited | src/screens/Dashboard.js:51 | movements without a site change nothing: the result is the one for the sited movements alone |
| Dashboard.PerSiteValues | src/screens/Dashboard.js:50-57 | with priced movements, the entry for a site is the sum of the values of the movements naming it, and there is none for a site no movement names |
| Dashboard.PerSiteSum | src/screens/Dashboard.js:50-57 | with priced movements every entry is a number and the entries add up to the sum over the sited movements |
| Dashboard.GrandTotalSum | src/screens/Dashboard.js:191-192 | adding up numeric entries gives their sum |
| Dashboard.GrandTotalIsSitedSum | src/screens/Dashboard.js:191-193 | the grand total is the sum of the values of every movement that has a site |
| Dashboard.AsWrittenNoSites | src/screens/Dashboard.js:51-53 | as written, with movements lacking `obraId` (as every stored one does), the dictionary is empty and the grand total 0 |
| Dashboard.NoSitesNoEntries | src/screens/Dashboard.js:51 | movements none of which has the site field give an empty dictionary |
| StatsCard.SplitPieces | src/components/StatsCard.js:20 | the split pieces contain only ASCII letters and digits, and there is one more piece than there are other characters |
| StatsCard.PascalCaseScanned | src/components/StatsCard.js:18-24 | split, filter, capitalise and join equal one pass that drops every other character and upper-cases each letter or digit that starts a piece |
| StatsCard.PascalCaseAlnum | src/components/StatsCard.js:20-23 | the result holds only ASCII letters and digits, and its length is the input's count of them |
| StatsCard.PascalCaseIdempotent | src/components/StatsCard.js:18-24 | applying `pascalCase` twice gives what applying it once gives |
| StatsCard.PascalCaseEmpty | src/components/StatsCard.js:18 | no name gives the empty name |
| StatsCard.PascalCaseCube | src/components/StatsCard.js:41 | "cube" gives "Cube" |
| StatsCard.DisplayValue | src/components/StatsCard.js:36 | undefined and null are shown as "-", anything else as it is |
| StatsCard.DisplayValueShown | src/components/StatsCard.js:36 | the card never shows undefined or null; the shown value is "-" iff the value is undefined, null or "-" itself; displaying twice changes nothing |
| StatsCard.ChosenGradient | src/components/StatsCard.js:48-60 | a known colour gives its own pair, an unknown or absent colour the blue pair; always two colours |
| StatsCard.GrayFromTheme | src/components/StatsCard.js:53-56 | gray is the theme's border and alternate surface: on the light theme these are the fallbacks themselves |
| StatsCard.GradientThemeIndependent | src/components/StatsCard.js:48-58 | only gray depends on the theme |
| ThemeContext.Toggled | src/context/ThemeContext.js:51 | "light" toggles to "dark" and every other name to "light" |
| ThemeContext.ToggleTwice | src/context/ThemeContext.js:51 | from "light" or "dark", two toggles return the start and one changes it |
| ThemeContext.ToggleTwiceOther | src/context/ThemeContext.js:51 | from any other stored name, two toggles end on "dark", not on the start |
| ThemeContext.ThemeFor | src/context/ThemeContext.js:56 | the theme is the light one iff the name is "light", otherwise the dark one |
| ThemeContext.ThemeNameMatches | src/context/ThemeContext.js:56 | the shown theme carries the provider's name iff that name is "light" or "dark" |
| ThemeContext.Restored | src/context/ThemeContext.js:45-47 | a stored preference replaces the name only when it is a non-empty string |
| ThemeContext.ToggleRestored | src/context/ThemeContext.js:45-53 | what a toggle writes is what the next start restores |
| ThemeContext.ThemeProvider.constructor | src/context/ThemeContext.js:42 | a provider starts with "light", whatever is stored |
| ThemeContext.ThemeProvider.LoadSaved | src/context/ThemeContext.js:44-48 | the name becomes the stored preference when it is truthy and is kept otherwise; storage is unchanged |
| ThemeContext.ThemeProvider.ToggleTheme | src/context/ThemeContext.js:50-54 | the name becomes the toggled name, that name is written under `@user-theme`, and the name is then "light" or "dark" |
| ThemeContext.ThemeProvider.CurrentTheme | src/context/ThemeContext.js:56 | the provided theme is the light one iff the name is "light" |

## Left out

- Materiais.SearchHit and JsValue.FieldHas: a field that is not text reads as "includes nothing", so the record is judged by its other fields. The source throws a TypeError instead in three cases. `m.nome.toLowerCase()` (Materiais.js:56) throws on a material without `nome`. Every `?.toLowerCase()` (Materiais.js:57, Historico.js:144-146) throws on a field that is present but not text, such as a number. No record the app builds reaches these cases: `validate` requires a text name, and movement names and notes are text. The throw is therefore not modelled, and the searches of the materials list and of the history do not capture it.
- `toLowerCase` (JsText.LowerChar) folds only the Basic Latin and Latin-1 capitals, one character to one. Other scripts are kept as they are, and the cases that change the length, such as U+0130 becoming two characters, are not modelled. This affects the text search of the materials list and of the history.
- Device storage is a field per key holding the list last written. A read or clear failure is a flag parameter (`Load`'s `readOk`, `ResetDatabase`'s `removed` and `written`). `saveData`'s writes are taken to succeed; the source only logs a failed one.
- React's asynchronous state updates and batching are not modelled. Every operation runs to completion before the next, so the stale `materials` closure in `createMovimentacao` and the race between the theme's stored-value read and a toggle do not arise.
- `Date.now()` and `new Date().toISOString()` are the parameter `now` (and `boot` for the sample movements). A timestamp is the instant it names, not its text.
- Numbers are exact reals plus NaN, with no binary64 rounding. `parseFloat` and `Number` read decimal literals with exponents; `Infinity`, hexadecimal and the `+` of strings are not modelled.
- `toString`, `toFixed` and `format` are not modelled. The texts they produce are parameters: `WorkForm.EditForm`'s `metragemText` and `valorText`, and `WorkForm.NewForm`'s `today`. The list screen's conversion of a material to text before editing (`src/screens/Materiais.js:35-43`) is left out for the same reason.
- Object property keys are strings in JavaScript. The dashboard's dictionary keys its entries by the site value itself, which coincides with the source whenever ids are strings, as every stored id is.
- The movement form's field updates (`handleChange`, the type buttons) are left out. `MovimentacaoForm.HandleSubmit` takes the form and the type as values.
- `JSON.parse` is taken never to throw on what the app itself wrote.
- Layout, styles, icons, alerts, toasts and navigation are left out. So are StatsCard's optional gradient library and its icon lookup in the icon package, which are foreign calls.
- `Historico.SortedMovimentacoes`: requires every movement to carry a timestamp. An undated movement makes the comparator return NaN, and the engine's order for that is unspecified.
- `StatsCard.ChosenGradient`: a colour name that is an inherited object property (`"constructor"`, `"toString"`) would yield that property in JavaScript. The model falls back to blue for every name outside the six keys.
- `Dashboard.MovValue`: the intended reading values a movement by its stored `valor_total`. That field is quantity times unit price at creation, which is what the code evidently means by `quantidade * valorUnitario`.

## Findings

| source | as written | input that shows it | evidently intended | confidence | as-written member | corrected member |
|---|---|---|---|---|---|---|
| src/screens/WorkForm.js:142 | `updateObra(dataToSend)` passes the payload as the id and no data, so no site's id `===` an object and nothing is updated | editing any site, e.g. `obra1`, and saving | `updateObra(formData.id, dataToSend)` | high; not executed | WorkForm.EditAsWrittenChangesNothing | WorkForm.EditIntendedUpdates |
| src/screens/Dashboard.js:20 | reads `materiais`, but the context provides `materials`, so the material count, stock value and alert count are always 0 | the sample data: 4 materials, the card shows 0 | read `materials` | high; not executed | Dashboard.AsWrittenStatsZero | Dashboard.IntendedStats |
| src/screens/Dashboard.js:43 | the alert test reads `estoque_atual`, which no stored material has, so it never holds | `mat1` with `quantidade` 4 and `estoque_minimo` 5 is not counted | compare `quantidade` with `estoque_minimo`, as the materials screen does | high; not executed | Dashboard.AsWrittenNoAlerts | Dashboard.IntendedStats |
| src/screens/Dashboard.js:51-53 | the loop reads `obraId` and `valorUnitario`, which stored movements do not have, so the per-site list is empty and the grand total 0 | the sample movements `mov1` (site `obra1`, value 177.5) and `mov2`: no entry is shown | group by `obra_id` and add up `valor_total` | high; not executed | Dashboard.AsWrittenNoSites | Dashboard.PerSiteValues |
| src/screens/MaterialForm.js:63 | after a value parses, `data[key].trim()` is called, which throws when the field holds a number rather than text | a form holding a material as the store keeps it, e.g. `quantidade: 4`; the list screen converts numbers to text before editing, so only a caller that skips that conversion reaches it | test for blank text only when the field is text | medium; not executed | MaterialForm.ResubmitThrows | MaterialForm.ResubmitPasses |
