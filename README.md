# Censo Operacional das Escolas — a Dafny model of its core

The system collects an operational census of the state schools of Pará. A
school fills in a multi-step web wizard:

- identification;
- ten section forms (general data, management, students, staff, technology, gatehouse,
  cleaning staff, school meals, rating, closing observations).

Each step keeps a draft in the browser's `localStorage`, merged with the
answers the server already has. Each step validates its form with a Zod schema. A Go API
writes a finished census as one row of a Google spreadsheet. It also reads the
index of regions, municipalities and schools from another sheet.

This project models that core:

- **`Sheets`** (`api/internal/services/sheets.go`):
  - `GetLocations` folds the sectors sheet into a region → municipality → schools index. It
    trims the cells, skips incomplete rows and repeated schools, and sorts each list.
  - `AppendCenso` decodes the census JSON. It flattens it into a 164-cell row through `val` and the
    fixed column layout, and appends it to the census sheet. The class
    `SheetsService` holds the two spreadsheet ids and the rows appended so far.
  - `formatJsonField` turns a stored JSON list back into comma-separated text.
- **`Persistence`** (`use-census-persistence.ts`) is the hook as a class:
  - loading fetches the step's server data, reads the local draft and
    resets the form to `{...defaults, ...server, ...local}`;
  - saving and clearing touch only the step's own `localStorage` key.
  
  `Storage` is the `localStorage` it shares with the page.
- **`Wizard`** (`page.tsx`) models the page's state (step, school, reset dialog), its handlers, and
  which form it renders. The handlers are functions on a `HomeState` and methods of the class `Home`.
- **`Stepper`** (`stepper.tsx`) models the step list: each button's completed/current marking,
  its icon and the index its click reports.
- **`FormInputs`** (`form-components.tsx`) models:
  - the number input's key blocking;
  - its `min` default;
  - its focus and change handlers;
  - the displayed value of the text, number and select inputs.
- **`Zod`** is an interpreter of the part of Zod (version 4) the schemas use: string,
  enum, coerced number, `numberSchema`, decimal-comma `floatSchema`, string
  array, `refine(v => v === true)`, with `.optional()` and `.default()`, plus
  `z.object` parsing and shape spreading.
- **`SchoolCensus`**, **`CensusSchema`** and one module per file under `schemas/steps/`
  (`GeneralDataStep`, `GestaoStep`, `AlunosStep`, `ServidoresStep`,
  `TecnologiaStep`, `PortariaStep`, `ServicosGeraisStep`, `MerendaStep`,
  `AvaliacaoStep`, `ObservacoesStep`) declare each schema's fields and rules. They prove
  that the schema accepts a record exactly when a plain-language validity
  predicate holds, together with the schema-specific consequences.

Supporting modules:

- `Wrappers` provides `Option` and `Result`.
- `JsonValues`, `JsonText` and `JsonRoundTrip` cover:
  - JSON values with exact decimal numbers;
  - `JSON.stringify`-style serialisation;
  - a parser;
  - the proof that parsing a serialised value gives it back.
- `Text` covers `strings.Join`, `TrimSpace`, `Trim`, `replace`, decimal
  integer text, and the string order with its sort.

Where the code and its surrounding description disagree, the model follows the code:

- `page.tsx` imports `STEPS` from `config/steps.ts`, which exports only
  `CENSUS_STEPS`. As written, `STEPS.length` and `STEPS[currentStep].title` would
  throw on the first render. The model assumes the evident binding to the eleven
  entries of `CENSUS_STEPS`: `Wizard.StepCount` is 11 (see "## Left out").
- `page.tsx` passes the `Stepper` no `onStepClick`. The click index is modelled as a
  value the button reports, not as a callback the page handles.
- `codigo_inep` has different rules in the two schemas:
  - `identificationSchema` requires at least 8 characters (`min(8)`);
  - `schoolIdentificationSchema` requires exactly 8 (`length(8)`).
  
  Both are modelled as written.
- `numberSchema`'s `NaN`-to-0 transform is unreachable under Zod 4: the coercion
  before it already rejects `NaN`. So a count that is not a number fails
  rather than becoming 0.

## Model

| member | source | states |
|---|---|---|
| Sheets.SheetsService.constructor | api/internal/services/sheets.go:24-62 | the service holds the census and locations spreadsheet ids and the census sheet it appends to |
| Sheets.SheetsService.GetLocations | api/internal/services/sheets.go:64-113 | an empty locations id is an error, a failed read is an error, otherwise the result is the index of the rows read |
| Sheets.RowEntry | api/internal/services/sheets.go:78-90 | a row yields an entry exactly when it has more than three cells and trimmed cells 0, 3 and 2 are all non-empty; that entry is the one the row qualifies for, and no entry qualifies when none is yielded |
| Sheets.QualifiesEntry | api/internal/services/sheets.go:78-90 | a row qualifies for exactly one entry, the one it contributes |
| Sheets.AddEntryListed | api/internal/services/sheets.go:88-101 | adding a school lists exactly the old entries plus the new one (a repeated school is not added twice) |
| Sheets.AddEntryWellFormed | api/internal/services/sheets.go:88-101 | adding a school keeps every region non-empty, every list non-empty and every list free of repetitions |
| Sheets.StepListed | api/internal/services/sheets.go:78-103 | after one row, an entry is listed exactly when it was listed before or the row qualifies for it |
| Sheets.GatherWellFormed | api/internal/services/sheets.go:78-103 | the index built from any rows has no empty region, no empty list and no repeated school |
| Sheets.GatherListed | api/internal/services/sheets.go:78-103 | before sorting, an entry is listed exactly when some row qualifies for it |
| Sheets.LocationsListed | api/internal/services/sheets.go:64-113 | the returned index lists an entry exactly when some row of the sheet lists it: nothing lost, nothing invented |
| Sheets.LocationsSorted | api/internal/services/sheets.go:105-110 | every school list of the returned index is non-empty and strictly ascending, and every region has a municipality |
| Sheets.GatherIgnoresSecondColumn | api/internal/services/sheets.go:80-82 | rows that differ only in cell 1 build the same unsorted index |
| Sheets.LocationsIgnoreSecondColumn | api/internal/services/sheets.go:80-82 | sheets that differ only in the second column give the same index |
| Sheets.DecodePayload | api/internal/services/sheets.go:120-124 | decoding succeeds exactly when the text is a JSON object or `null`; an object gives its key/value map (last duplicate wins), `null` the empty map |
| Sheets.DecodeSerialized | api/internal/services/sheets.go:120-124 | a serialised object decodes to its members' map |
| Sheets.ValueOf | api/internal/services/sheets.go:126-138 | an absent key gives `""`, an array gives its items rendered and joined with `", "`, any other value is returned as it is |
| Sheets.Val | api/internal/services/sheets.go:126-138 | the buffer loop of `val` yields the cell `ValueOf` describes |
| Sheets.SortedKeys | api/internal/services/sheets.go:126-138 | the keys printed for a map are strictly ascending, and are exactly the object's keys |
| Sheets.RenderAll | api/internal/services/sheets.go:129-132 | one rendered text per array item, in order |
| Sheets.FormatJsonField | api/internal/services/sheets.go:140-147 | empty input gives `""`; text that decodes as a Go `[]string` (`null`, or a list of strings and nulls, a null item read as `""`) gives its items joined with `", "`; any other text loses every leading and trailing `"` and then neither starts nor ends with one |
| Sheets.FormatJsonFieldOfParsed | api/internal/services/sheets.go:140-147 | text that parses to a list of strings is written back as those strings joined with `", "` |
| Sheets.FormatJsonFieldOfList | api/internal/services/sheets.go:140-147 | a serialised list of strings is turned back into exactly those strings joined with `", "` |
| Sheets.SchoolCells | api/internal/services/sheets.go:150-162 | every row opens with 13 school cells |
| Sheets.ValCells | api/internal/services/sheets.go:164-243 | each answer column holds `val` of its key, in key order |
| Sheets.PrioritiesOfText | api/internal/services/sheets.go:245 | with string or absent priorities, the priorities cell is `1. p1 \| 2. p2 \| 3. p3` over their texts |
| Sheets.RowCellsLayout | api/internal/services/sheets.go:149-248 | a row is the school cells, then the answer columns, then the priorities cell, then the closing columns, at the positions this implies |
| Sheets.RowLayout | api/internal/services/sheets.go:149-248 | the census row is always 164 cells wide and each column holds one known school field, answer or the priorities text |
| Sheets.ValCellsAgree | api/internal/services/sheets.go:164-243 | answers that agree on the keys give the same answer columns |
| Sheets.RowCellsAgree | api/internal/services/sheets.go:149-248 | payloads agreeing on every key a row reads give the same row |
| Sheets.RowReadsOnlyRowKeys | api/internal/services/sheets.go:149-248 | the row depends only on the answer keys it names: other answers are ignored |
| Sheets.ValColumns | api/internal/services/sheets.go:164-243 | the loop over the keys yields exactly the answer columns `ValCells` describes |
| Sheets.MakeRow | api/internal/services/sheets.go:149-248 | the row literal equals the row layout described by `BuildRow` |
| Sheets.SheetsService.AppendCenso | api/internal/services/sheets.go:115-258 | an empty census id, undecodable JSON and a failed append are the three errors; success exactly when none occurs, and then exactly one row (the row of the decoded answers) is appended; on error the sheet is unchanged |
| Storage.LocalStorage.Get | web/src/hooks/use-census-persistence.ts:42 | `getItem` gives the stored text exactly when the key is present, `null` otherwise |
| Storage.LocalStorage.SetItem | web/src/hooks/use-census-persistence.ts:70 | `setItem` changes that key only |
| Storage.LocalStorage.RemoveItem | web/src/hooks/use-census-persistence.ts:74 | `removeItem` deletes that key only |
| Storage.LocalStorage.Clear | web/src/app/page.tsx:53 | `clear` empties the store |
| Persistence.DraftKey | web/src/hooks/use-census-persistence.ts:42 | a draft key is `censo_draft_`, the step key, then `_v1` |
| Persistence.DraftKeyInjective | web/src/hooks/use-census-persistence.ts:42 | different steps never share a draft key |
| Persistence.FetchUrl | web/src/hooks/use-census-persistence.ts:26-28 | the `schools` endpoint fetches the school record by id, any other endpoint the census answers by school id |
| Persistence.FetchUrlsDiffer | web/src/hooks/use-census-persistence.ts:26-28 | the two URLs never coincide, whatever the ids |
| Persistence.OwnProperties | web/src/hooks/use-census-persistence.ts:51-55 | spreading an object copies its members; spreading `null`, a boolean or a number copies nothing |
| Persistence.ServerLayer | web/src/hooks/use-census-persistence.ts:25-39 | a network error or a non-OK response leaves the server layer empty; so does an OK response whose body does not parse, is not an object, or has an absent or falsy `data`; an OK response with a truthy `data` gives that value's own properties |
| Persistence.ServerLayerOfData | web/src/hooks/use-census-persistence.ts:30-36 | an OK response `{"data": {...}}` gives exactly that object's members as the server layer |
| Persistence.LocalLayer | web/src/hooks/use-census-persistence.ts:41-49 | no stored draft, an empty one, or one that does not parse gives an empty local layer; a draft that parses gives that value's own properties |
| Persistence.LocalLayerOfDraft | web/src/hooks/use-census-persistence.ts:41-49 | a draft saved with `JSON.stringify` is read back as the same record |
| Persistence.Merge | web/src/hooks/use-census-persistence.ts:51-55 | the merged form has every key of any layer; the local draft wins over the server data, which wins over the defaults |
| Persistence.CensusPersistence.constructor | web/src/hooks/use-census-persistence.ts:5-12 | the hook starts loading, with the form untouched |
| Persistence.CensusPersistence.Load | web/src/hooks/use-census-persistence.ts:14-67 | without a (truthy) school id nothing is fetched and the form is left alone; otherwise the endpoint's URL is fetched and the form is reset to the three layers merged; loading always ends |
| Persistence.CensusPersistence.SaveLocalDraft | web/src/hooks/use-census-persistence.ts:69-71 | the step's key alone now holds the serialised data |
| Persistence.CensusPersistence.ClearLocalDraft | web/src/hooks/use-census-persistence.ts:73-75 | the step's key alone is removed |
| Persistence.SaveThenLoad | web/src/hooks/use-census-persistence.ts:41-71 | after a step saves a draft, its next load takes that draft as the winning layer, and other steps' drafts are unchanged |
| Persistence.ClearThenLoad | web/src/hooks/use-census-persistence.ts:41-75 | after a step clears its draft, its next load is the defaults overridden by the server data |
| Wizard.Initial | web/src/app/page.tsx:21-23 | the page starts at step 0 with no school and the dialog closed |
| Wizard.Next | web/src/app/page.tsx:26-29 | one step forward, capped at the last step; school and dialog unchanged |
| Wizard.Back | web/src/app/page.tsx:32-35 | one step back, never below 0; school and dialog unchanged |
| Wizard.IdentificationSuccess | web/src/app/page.tsx:38-41 | the school is remembered and the page advances as `handleNext` does |
| Wizard.OpenReset | web/src/app/page.tsx:44-46 | only the dialog opens |
| Wizard.CloseReset | web/src/app/page.tsx:91 | only the dialog closes |
| Wizard.ConfirmReset | web/src/app/page.tsx:48-55 | whatever the state, the page returns to its initial state |
| Wizard.RenderStep | web/src/app/page.tsx:57-84 | step 0 shows the identification form with the current school; steps 1-10 show their section form for the school exactly when the school id is truthy; anything else shows nothing |
| Wizard.SectionAtInjective | web/src/app/page.tsx:61-80 | each section form belongs to exactly one step |
| Wizard.BackAfterNext | web/src/app/page.tsx:26-35 | from any step before the last, back after next returns to the same state |
| Wizard.NavigationAtEnds | web/src/app/page.tsx:26-35 | next at the last step and back at step 0 change nothing |
| Wizard.IdentifyFromStart | web/src/app/page.tsx:38-62 | identifying from a fresh page shows the general-data form for that school, or nothing when the id is 0 |
| Wizard.RunInRange | web/src/app/page.tsx:21-55 | whatever sequence of handlers fires, the step stays within the eleven steps |
| Wizard.RunSchool | web/src/app/page.tsx:21-55 | after any sequence of handlers the school is the last one identified, or none after a later reset |
| Wizard.Home.State | web/src/app/page.tsx:21-23 | the component's three state variables, read together |
| Wizard.Home.constructor | web/src/app/page.tsx:21-23 | the component starts in the initial state |
| Wizard.Home.HandleNext | web/src/app/page.tsx:26-29 | the new state is `Next` of the old |
| Wizard.Home.HandleBack | web/src/app/page.tsx:32-35 | the new state is `Back` of the old |
| Wizard.Home.HandleIdentificationSuccess | web/src/app/page.tsx:38-41 | the new state is `IdentificationSuccess` of the old |
| Wizard.Home.HandleReset | web/src/app/page.tsx:44-46 | the new state is `OpenReset` of the old |
| Wizard.Home.CloseResetModal | web/src/app/page.tsx:91 | the new state is `CloseReset` of the old |
| Wizard.Home.ConfirmReset | web/src/app/page.tsx:48-55 | the page is back in its initial state and the whole store, every step's draft included, is empty |
| Stepper.IconFor | web/src/components/ui/stepper.tsx:45-51 | a check exactly for a completed step, a dot exactly for the current step that is not completed |
| Stepper.Render | web/src/components/ui/stepper.tsx:19-58 | one button per step, in order, each built from its own title and index |
| Stepper.RenderMarks | web/src/components/ui/stepper.tsx:19-58 | each button shows its own title and reports its own index; completed exactly before the current step, current exactly at it, never both; its icon follows that marking |
| Stepper.ExactlyOneCurrent | web/src/components/ui/stepper.tsx:20-21 | with the current step in range, exactly one button is current and the completed ones are exactly those before it |
| Stepper.PastTheEnd | web/src/components/ui/stepper.tsx:20-21 | with the current step past the end, no button is current and all are completed |
| FormInputs.BlockedExactly | web/src/components/ui/form-components.tsx:89-90 | exactly the keys `e`, `E`, `+` and `-` are blocked |
| FormInputs.KeyEvent.BlockInvalidChar | web/src/components/ui/form-components.tsx:89-90 | the event is cancelled exactly when its key is blocked (or it already was) |
| FormInputs.MinAttribute | web/src/components/ui/form-components.tsx:102 | the `min` attribute is the given bound, 0 when none is given |
| FormInputs.Focused | web/src/components/ui/form-components.tsx:108-112 | focusing clears a value that is exactly the number 0 and leaves any other value alone |
| FormInputs.Changed | web/src/components/ui/form-components.tsx:113-122 | `NaN` clears the field, a negative number leaves it unchanged, anything else is stored |
| FormInputs.EditKeepsNonNegative | web/src/components/ui/form-components.tsx:108-122 | no single focus or change makes a non-negative field negative |
| FormInputs.EditsKeepNonNegative | web/src/components/ui/form-components.tsx:108-122 | no sequence of focuses and changes ever stores a negative number in a field that started non-negative |
| FormInputs.TypingNumberStoresIt | web/src/components/ui/form-components.tsx:108-122 | typing a non-negative number stores it, and focusing afterwards clears it only when it is 0 |
| FormInputs.NumberField.OnFocus | web/src/components/ui/form-components.tsx:108-112 | the field becomes `Focused` of its old value |
| FormInputs.NumberField.OnChange | web/src/components/ui/form-components.tsx:113-122 | the field becomes `Changed` of its old value and the typed number |
| FormInputs.NumberDisplay | web/src/components/ui/form-components.tsx:123 | the number input shows `""` for `null` or `undefined` only |
| FormInputs.TextDisplay | web/src/components/ui/form-components.tsx:65 | the text and select inputs show `""` for every falsy value |
| FormInputs.DisplaysDiffer | web/src/components/ui/form-components.tsx:65-153 | the two displays differ exactly on `false` and on the number 0 |
| Zod.Coerce | web/src/schemas/steps/portaria.ts:11 | `z.coerce.number()` of `undefined` is `NaN`, of `null` and `false` 0, of `true` 1, of a number that number |
| Zod.CheckBase | web/src/schemas/steps/general-data.ts:9-14 | each value rule accepts exactly what it names (string length, enum member, coerced number and its bound, string array length, `true`) and returns the value or the coerced number |
| Zod.CheckField | web/src/schemas/steps/alunos.ts:22-24 | a required field is never left out; `undefined` is left out by `.optional()` and filled by `.default()`; otherwise the value rule decides |
| Zod.Parse | web/src/schemas/school-census.ts:3-22 | parsing succeeds exactly when no field fails; a failure names exactly the failing fields (never none); a success holds exactly the fields that yield a value, with those values |
| Zod.EmptyPassesOptional | web/src/schemas/census-schema.ts:24-74 | a shape of optional fields accepts `{}` and yields `{}` |
| Zod.AbsentPassesOptional | web/src/schemas/census-schema.ts:24-74 | a shape of optional fields accepts any record that gives none of them, and yields `{}` |
| Zod.UnknownKeysIgnored | web/src/schemas/school-census.ts:3-22 | a key outside the shape never changes the outcome |
| Zod.DefaultsFilled | web/src/schemas/steps/servidores.ts:10 | a passing record always carries a defaulted field, holding the default when it was absent |
| Zod.Spread | web/src/schemas/census-schema.ts:241-253 | the spread has the fields of both shapes, the later one winning on a shared name |
| Zod.SpreadAllLastWins | web/src/schemas/census-schema.ts:241-253 | in a spread of many shapes, a field takes its rule from the last shape that declares it |
| Zod.SpreadAllKeys | web/src/schemas/census-schema.ts:241-253 | the spread declares exactly the fields some shape declares |
| Zod.MeetsIff | web/src/schemas/school-census.ts:3-22 | a field passes exactly when it meets its rule in plain terms |
| Zod.AcceptsIff | web/src/schemas/school-census.ts:3-22 | a record passes exactly when every field meets its rule |
| Zod.ShapeOf | web/src/schemas/school-census.ts:3-22 | the shape declares exactly the given names, each with its rule |
| Zod.AllMeetUnion | web/src/schemas/census-schema.ts:241-253 | meeting the rules of a union of names is meeting those of each part |
| Zod.ParseShapeOf | web/src/schemas/school-census.ts:3-22 | passing a shape built from rules is meeting every rule |
| Zod.UnionAll | web/src/schemas/census-schema.ts:241-253 | the union holds exactly the names of some part |
| Zod.SpreadShapesOf | web/src/schemas/census-schema.ts:241-253 | spreading shapes that agree on every name's rule is the shape of all their names |
| Zod.ParseUnionAll | web/src/schemas/census-schema.ts:241-253 | a record passes the shape of all the names exactly when it passes every part |
| Zod.SetKeepsPassing | web/src/schemas/school-census.ts:3-22 | giving a field a value its rule accepts keeps a passing record passing |
| Zod.RemoveKeepsPassing | web/src/schemas/school-census.ts:19-21 | removing fields that are not required keeps a passing record passing |
| Zod.FailureReported | web/src/schemas/school-census.ts:3-22 | a field its rule rejects fails the parse and is among the fields reported |
| Zod.PassesUnchanged | web/src/schemas/steps/servicos-gerais.ts:3-14 | a record whose fields pass through their rules unchanged, leaving out only optional ones, parses to itself |
| Zod.NaNAsZeroIsCoercedMin | web/src/schemas/steps/general-data.ts:3-6 | `numberSchema` behaves exactly as `z.coerce.number().min(0)`: its `NaN`-to-0 transform never fires, and `undefined` fails |
| Zod.NaNAsZeroAccepts | web/src/schemas/steps/general-data.ts:3-6 | a value passes `numberSchema` exactly when it converts to a number that is not negative |
| Zod.DecimalText | web/src/schemas/steps/alunos.ts:6 | the rewritten text has the same length as the input |
| Zod.DecimalCommaRule | web/src/schemas/steps/alunos.ts:3-12 | only the first `,` becomes `.` before `parseFloat` |
| Zod.DecimalCommaEmpty | web/src/schemas/steps/alunos.ts:7 | an empty rate is accepted as 0 |
| Zod.DecimalCommaNonString | web/src/schemas/steps/alunos.ts:9 | a value that is not a string is coerced as it is |
| SchoolCensus.IdentificationAccepts | web/src/schemas/school-census.ts:3-22 | the identification schema accepts a record exactly when DRE and municipality are given, the name has 3 characters or more, the INEP code exactly 8, the address 5 or more, the zone is known, and the optional fields are strings when present |
| SchoolCensus.InepRule | web/src/schemas/school-census.ts:8 | the INEP code is a required string of exactly 8 characters |
| SchoolCensus.InepExactlyEight | web/src/schemas/school-census.ts:8 | in a passing identification, an INEP code keeps it passing exactly when it has 8 characters |
| CensusSchema.IdentificationAccepts | web/src/schemas/census-schema.ts:7-21 | the census identification section passes exactly when name, address, municipality and DRE are non-empty, the INEP code has 8 or more characters, the zone is known, and the shifts are a list of strings and the other fields strings when present |
| CensusSchema.InepRule | web/src/schemas/census-schema.ts:9 | the INEP code there is a required string of at least 8 characters |
| CensusSchema.InepAtLeastEight | web/src/schemas/census-schema.ts:9 | in a passing section an INEP code keeps it passing exactly when it has 8 or more characters: longer codes are not refused |
| CensusSchema.ObservationsAccepts | web/src/schemas/census-schema.ts:227-238 | the closing section passes exactly when the person responsible is named, the declaration is `true`, the yes/no answers are Sim or Não when present, and the texts are strings when present |
| CensusSchema.ResponsibleRules | web/src/schemas/census-schema.ts:234-237 | the name of the person responsible is a required non-empty string, the declaration a required `true` |
| CensusSchema.DeclarationRequired | web/src/schemas/census-schema.ts:237 | anything but `true` as the declaration fails the section and is reported against the declaration |
| CensusSchema.ResponsibleNameRequired | web/src/schemas/census-schema.ts:234 | a missing or empty name fails the section and is reported against the name |
| CensusSchema.BomRegularRuimAccepts | web/src/schemas/census-schema.ts:5 | `bomRegularRuim` accepts `undefined` and exactly its six strings |
| CensusSchema.ConditionFields | web/src/schemas/census-schema.ts:77-114 | the kitchen's and the five appliances' conditions are `bomRegularRuim` fields |
| CensusSchema.MiddleRulesOptional | web/src/schemas/census-schema.ts:24-224 | every field of the nine middle sections is `.optional()` |
| CensusSchema.MiddleSectionKeys | web/src/schemas/census-schema.ts:24-224 | the nine middle sections hold middle fields only |
| CensusSchema.MiddleSectionsOptional | web/src/schemas/census-schema.ts:24-224 | each of the nine middle sections leaves every field optional |
| CensusSchema.EmptyPassesMiddleSections | web/src/schemas/census-schema.ts:24-224 | `{}` passes each middle section and comes out as `{}` |
| CensusSchema.SectionsAreShapes | web/src/schemas/census-schema.ts:7-238 | there are eleven sections, each the shape of its names under their rules |
| CensusSchema.CensusFormShape | web/src/schemas/census-schema.ts:241-253 | the spread gives the census form exactly the fields of the eleven sections, each with its section's rule |
| CensusSchema.CensusFormAccepts | web/src/schemas/census-schema.ts:241-253 | the census form passes exactly when every section passes |
| CensusSchema.CensusFormNeeds | web/src/schemas/census-schema.ts:241-253 | a passing census form has a valid identification and a valid closing section |
| CensusSchema.IdentificationAndObservationsSuffice | web/src/schemas/census-schema.ts:241-253 | a valid identification and closing section with no middle field filled in pass the census form |
| GeneralDataStep.GeneralDataAccepts | web/src/schemas/steps/general-data.ts:8-52 | the schema accepts a record exactly when its required answers are given, its yes/no and list answers are from their lists, at least one stage and modality is offered, and its counts are non-negative numbers (the optional ones when present) |
| GeneralDataStep.RequiredCountRule | web/src/schemas/steps/general-data.ts:17-42 | the six required counts are `numberSchema` fields |
| GeneralDataStep.CountNotANumber | web/src/schemas/steps/general-data.ts:3-6 | a required count that does not convert to a number fails and is reported |
| GeneralDataStep.CountRequired | web/src/schemas/steps/general-data.ts:17 | a missing required count fails and is reported |
| GeneralDataStep.AnnexRules | web/src/schemas/steps/general-data.ts:10-11 | the annex question is a required Sim or Não, the annex count an optional `numberSchema` field |
| GeneralDataStep.AnnexCountIndependent | web/src/schemas/steps/general-data.ts:10-11 | the annex count may be left out even when the school answers that it has annexes |
| GestaoStep.GestaoAccepts | web/src/schemas/steps/gestao.ts:3-35 | the schema accepts a record exactly when its questions are answered from their lists, the amounts are non-negative numbers when present and the optional answers are from their lists when present |
| GestaoStep.ProdepRules | web/src/schemas/steps/gestao.ts:9-12 | PRODEP's answer is required; its amount, execution and pending issues are optional |
| GestaoStep.ProdepDetailsIndependent | web/src/schemas/steps/gestao.ts:9-12 | the PRODEP details may all be left out even when funds were received |
| GestaoStep.AmountRule | web/src/schemas/steps/gestao.ts:10 | the two amounts are optional non-negative numbers |
| GestaoStep.NegativeAmountRejected | web/src/schemas/steps/gestao.ts:15 | a negative amount fails and is reported |
| AlunosStep.AlunosAccepts | web/src/schemas/steps/alunos.ts:14-25 | the schema accepts a record exactly when the beneficiaries are a non-negative number, the four rates are given and non-negative after the decimal-comma rewrite, and the IDEB scores are so when present |
| AlunosStep.RateRule | web/src/schemas/steps/alunos.ts:17-24 | the four rates are required decimal-comma numbers, the three IDEB scores optional ones |
| AlunosStep.EmptyRateIsZero | web/src/schemas/steps/alunos.ts:7 | clearing a rate to `""` keeps a passing record passing |
| AlunosStep.RatesRequired | web/src/schemas/steps/alunos.ts:17-24 | a missing rate fails, while the IDEB scores may be left out |
| ServidoresStep.ServidoresAccepts | web/src/schemas/steps/servidores.ts:3-23 | the schema accepts a record exactly when the ten yes/no questions are Sim or Não and the five counts are non-negative numbers when present |
| ServidoresStep.CountRule | web/src/schemas/steps/servidores.ts:10-22 | each count defaults to 0 and otherwise must be a non-negative number |
| ServidoresStep.CountsFilled | web/src/schemas/steps/servidores.ts:10-22 | a passing record comes out with all five counts, 0 for each left out |
| ServidoresStep.CoordinatorRule | web/src/schemas/steps/servidores.ts:9 | the coordinator question is a required Sim or Não |
| ServidoresStep.CountIndependentOfAnswer | web/src/schemas/steps/servidores.ts:9-10 | any non-negative number of coordinators passes alongside the answer Não |
| TecnologiaStep.TecnologiaAccepts | web/src/schemas/steps/tecnologia.ts:3-26 | the schema accepts a record exactly when the yes/no questions are answered, computer adequacy is from its list, provider and quality are from theirs when present, and the six counts are non-negative numbers when present |
| TecnologiaStep.CountRule | web/src/schemas/steps/tecnologia.ts:15-24 | each count defaults to 0 and otherwise must be a non-negative number |
| TecnologiaStep.CountsFilled | web/src/schemas/steps/tecnologia.ts:15-24 | a passing record comes out with all six counts, 0 for each left out |
| TecnologiaStep.ProjectorRule | web/src/schemas/steps/tecnologia.ts:23 | the projector question is a required Sim or Não |
| TecnologiaStep.ProjectorCountIndependent | web/src/schemas/steps/tecnologia.ts:23-24 | any non-negative number of projectors passes alongside the answer Não |
| PortariaStep.PortariaAccepts | web/src/schemas/steps/portaria.ts:3-19 | the schema accepts a record exactly when the guard-house and adequacy questions are answered, the number of agents is a number of any sign, the number needed is a number when present and the rest are strings when present |
| PortariaStep.NeededRules | web/src/schemas/steps/portaria.ts:13-14 | the adequacy answer is a required non-empty string, the number needed an optional number of any sign |
| PortariaStep.NeededIndependent | web/src/schemas/steps/portaria.ts:13-14 | the number needed may be left out whatever the adequacy answer |
| ServicosGeraisStep.ServicosGeraisAccepts | web/src/schemas/steps/servicos-gerais.ts:3-14 | the schema accepts a record exactly when the three counts are numbers of any sign, the adequacy question is answered and the rest are of their types when present |
| ServicosGeraisStep.MinimalFields | web/src/schemas/steps/servicos-gerais.ts:3-14 | each of the three counts and the answer passes unchanged and every field left out is optional |
| ServicosGeraisStep.MinimalRecord | web/src/schemas/steps/servicos-gerais.ts:3-14 | the three counts and a non-empty answer pass, and parse to exactly themselves |
| MerendaStep.MerendaAccepts | web/src/schemas/steps/merenda.ts:3-43 | the schema accepts a record exactly when the kitchen's condition and size are from their lists, the required answers are given, the eight counts are numbers of any sign and the rest are strings when present |
| MerendaStep.CountRule | web/src/schemas/steps/merenda.ts:15-36 | each appliance and cook count is a required coerced number with no lower bound |
| MerendaStep.AnyCountAccepted | web/src/schemas/steps/merenda.ts:15-36 | any number, negative ones included, as a count keeps a passing record passing |
| MerendaStep.RefectoryRules | web/src/schemas/steps/merenda.ts:10-11 | the refectory question is a required answer, its adequacy an optional string |
| MerendaStep.RefectoryAdequacyIndependent | web/src/schemas/steps/merenda.ts:10-11 | the adequacy may be left out even when there is a refectory |
| AvaliacaoStep.AvaliacaoAccepts | web/src/schemas/steps/avaliacao.ts:5-11 | the schema accepts a record exactly when all five services are rated with one of the four grades |
| AvaliacaoStep.GradeRule | web/src/schemas/steps/avaliacao.ts:3-10 | every service is a required grade from the four |
| AvaliacaoStep.AnyGradesPass | web/src/schemas/steps/avaliacao.ts:3-10 | any combination of the four grades passes |
| AvaliacaoStep.OtherGradeFails | web/src/schemas/steps/avaliacao.ts:3-10 | a grade outside the four fails and is reported against that service |
| ObservacoesStep.ObservacoesAccepts | web/src/schemas/steps/observacoes.ts:3-20 | the schema accepts a record exactly when the three priorities are non-empty, the two questions are Sim or Não, name and role have 3 characters or more, the optional texts are strings when present and the declaration is `true` |
| ObservacoesStep.DeclarationRequired | web/src/schemas/steps/observacoes.ts:18-20 | anything but `true` as the declaration fails the step |
| ObservacoesStep.DescriptionsIndependent | web/src/schemas/steps/observacoes.ts:8-12 | the descriptions may be left out even when both answers are Sim |
| JsonRoundTrip.ParseSerialize | web/src/hooks/use-census-persistence.ts:45-70 | parsing the serialised text of any value gives that value back |
| JsonRoundTrip.SerializeInjective | web/src/hooks/use-census-persistence.ts:70 | different values are serialised to different texts |
| Text.Join | api/internal/services/sheets.go:133 | joining no parts gives `""`, one part gives that part |
| Text.JoinSnoc | api/internal/services/sheets.go:133 | joining one more part adds the separator and that part |
| Text.TrimSpec | api/internal/services/sheets.go:80-82 | trimming removes a prefix and a suffix of cut characters, and the rest neither starts nor ends with one |
| Text.ReplaceFirst | web/src/schemas/steps/alunos.ts:6 | the length is kept, and a string without the character is unchanged |
| Text.ReplaceFirstAt | web/src/schemas/steps/alunos.ts:6 | exactly the first occurrence is replaced |
| Text.IntText | web/src/hooks/use-census-persistence.ts:27-28 | an integer's text starts with `-` exactly when the integer is negative, and is otherwise its digits |
| Text.NatTextRoundTrip | web/src/hooks/use-census-persistence.ts:27-28 | reading back a number's decimal text gives the number |
| Text.NatTextInjective | web/src/hooks/use-census-persistence.ts:27-28 | different numbers have different texts |
| Text.StrictlySortedUnique | api/internal/services/sheets.go:105-110 | two strictly sorted lists with the same elements are equal |
| Text.SortMultiset | api/internal/services/sheets.go:107 | sorting is a permutation |
| Text.SortSorted | api/internal/services/sheets.go:107 | sorting yields an ascending list |
| Text.SortStrictly | api/internal/services/sheets.go:105-110 | sorting a list without repetitions gives the strictly ascending list of its elements |

## Left out

- Google API calls (service creation from credentials and environment, reading a range, appending a row) are replaced by their outcomes: the rows read, or failure, and whether the append succeeded. The error texts are replaced by error tags.
- Go's `float64`: JSON numbers are exact decimals, so rounding of large or long numbers is not modelled. `Sheets.FormatNumber` states only the sign and non-emptiness of `%v`'s output, not its exact digits.
- Sheets.DecodePayload: JSON numbers are unbounded exact decimals. Go decodes each number with `strconv.ParseFloat(s, 64)`, and `json.Unmarshal` fails on a number outside the `float64` range (such as `1e400`), so `AppendCenso` then returns its decoding error. The model decodes such a payload and appends a row.
- Sheets.SheetsService.AppendCenso: inherits that gap, so for out-of-range numbers it promises success where Go reports a decoding error.
- Sheets.FormatNumber: negative zero is not modelled. Go prints a decoded `-0` as `-0`, while the model has a single zero and prints `0`.
- `Sheets.Render` (the `fmt.Sprint` of a decoded value used by `val`) has no contract of its own; the shapes it prints follow `fmt`'s `%v`.
- How the Sheets API renders a number cell or a `map` value on the sheet side is not modelled: a row cell is a JSON value.
- JavaScript property order is not modelled: a form record is a map, since only key membership and values matter to the merge and the schemas.
- JsonText.ParseEscape: one parser stands for Go's `json.Unmarshal` and for JavaScript's `JSON.parse` and `response.json()`. A lone-surrogate escape such as `"\ud800"` becomes U+FFFD, as in Go; `JSON.parse` keeps the lone UTF-16 unit, which a Dafny `char` cannot hold. So on the server and draft layers the model substitutes U+FFFD where the browser would not.
- String lengths are counted in characters, not UTF-16 code units (ASCII and Latin-1 answers agree).
- `JSON.stringify` details beyond the value round trip: escaping choices, `undefined`-valued keys (dropped by `stringify`) and `-0`. Keys whose value is `undefined` are modelled as absent.
- `window.scrollTo` and `window.location.reload` in the page handlers are not modelled; after a confirmed reset the model keeps the cleared state the reload would rebuild.
- `Number()` and `parseFloat` on strings, arrays and objects are the `Host` parameters of the Zod model, not defined here.
- The outer `catch` of the hook's load (a failing `reset`) is not modelled, because `reset` is modelled as total. The `console` logging is left out.
- Timing of React effects and their dependency list: `Load` models one run of the effect.
- Concurrency of overlapping loads is not modelled.
- Wizard.Next: `STEPS`, which `page.tsx` imports, is not exported by `config/steps.ts` (it exports `CENSUS_STEPS`). The step bound `StepCount = 11` assumes `STEPS` is `CENSUS_STEPS`; the code as written throws instead.
- Wizard.Home.HandleNext: inherits the same 11-step assumption.
- Wizard.RenderStep: the headings `STEPS[currentStep].title` and `.description` are not modelled. Their order also disagrees with the forms: `CENSUS_STEPS` lists the meals step third and the management step ninth (`config/steps.ts:12-16`, `config/steps.ts:42-46`), while `renderStep` shows Gestão at step 2 and Merenda at step 8. So those headings would name another form.
- Persistence.FetchUrl: school ids are modelled as integers, since they come from the database's integer id. In JavaScript, `schoolId` is a `number`. Fractional ids (printed `1.5`), ids of `1e21` or more (printed in exponent form such as `1e+21`) and `NaN` (which `!schoolId` also skips) are not modelled.
- Persistence.HasSchool: the same integer model of `schoolId`: only `null`, `undefined` and 0 count as "no school", and `NaN` is not represented.
- `Stepper`'s `onStepClick`: the page passes none, so a click would call `undefined`. The model records the index each button would report instead.
- `FormInputs.Changed`: `valueAsNumber` giving an infinity is treated as a number the browser reports; the model's typed value is a finite decimal or `NaN`.
- The radio input and the style classes of every component are left out: they only pass values through to the UI library.
- The census form's keys are tagged with their section (`CensusSchema.Key`). No field name occurs in two sections, so this matches the spread of plain names.
- `CensusSchema.Sections` is built from the sections' name sets and rules rather than from the eleven named schema constants. `CensusSchema.SectionsAreShapes` proves that each entry is the corresponding section's shape.
- Zod's error messages are not modelled: a failure is the set of fields that failed.
