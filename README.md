# Property editors of the form designer, in Dafny

This project models `public/javascripts/property-editor.js`, the jQuery widget
that renders an editor for one property of a form control and keeps
`property.value` in step with what the user does. The DOM is reduced to the
state behind it: text-field strings, checkbox booleans, `disabled` flags, the
`<li>` rows of an option list with their titles and `even` stripes, the
`<option>` rows of a select, the wrapper's `error` class, its error list and its
visibility. Each editor's closure becomes a class whose fields are those
controls and closure variables; each event handler becomes a method. Every
method's `ensures` ties the new state to a pure function of the old one, and the
properties the editors promise are proved as lemmas and `ensures` of those
functions.

Modules, one per part of the file:

- `Values` — JavaScript values as the editors see them (`false`, `null`,
  `undefined`, strings, the range record, arrays), truthiness, `== null`, and the
  shared option-row object `OptionRow`.
- `Properties` — the `Property` object and the `Parent` control element: its
  property map and the log of `odkControl-propertiesUpdated` publications (each
  publish appends the property id it carries).
- `Validation` — the filter and map behind `processValidation`.
- `Binder` — `$.fn.propertyEditor`: dispatch on `property.type`, the validation
  display, the `bindDisplayIf` visibility binding.
- `SimpleEditors` — the `text` and `bool` editors.
- `RangeEditor` — `numericRange`, which `dateRange` delegates to.
- `OptionsEditor` — `optionsEditor` and the row helper `newOptionRow`.
- `OtherEditor` — the dependent-option editor `otherEditor`.

Behaviour of the code worth knowing, which the model keeps:

- A dependent option whose remembered row was removed keeps the removed row's
  string, even when the list still offers other rows. The code keeps the stale
  row reference, so it never adopts another row, and it re-saves
  `property.value[0]`. `OtherEditor.StaleAfterRemoval` shows the case and
  `OtherEditor.ResolveLands` says exactly when the value lands on a listed one.
- Re-enabling a dependent option selects the remembered row if it is still
  listed, not always the first row (`OtherEditor.ReEnable`).
- The enable toggle of a dependent option publishes twice when `update` resolves a
  value: once in the handler and once in `updateOptions`. `addOption` on a value
  that is not a row array throws at `push` before publishing, and the select's
  `change` handler publishes nothing when no option is selected. The dependent
  option's `odkControl-propertiesUpdated` listener publishes zero times or once,
  through `updateOptions`. Every other user-event handler publishes exactly once.
- An unknown type tag, or a missing `bindTo` or `bindDisplayIf` sibling, throws
  a `TypeError` out of the widget call. The model returns an `Err`.

## Model

| member | source | states |
|---|---|---|
| `Values.Truthy` | public/javascripts/property-editor.js:72 | falsy are exactly `undefined`, `null`, `false`, `0` and `""`; every other value, objects and arrays included, is truthy |
| `Values.IsNullish` | public/javascripts/property-editor.js:122 | `== null` holds only of falsy values other than `false`, so `=== false` and `== null` never both hold |
| `Validation.Failing` | public/javascripts/property-editor.js:28 | the filter keeps only failing results and is non-empty exactly when some result fails |
| `Validation.FailingDrawnFromInput` | public/javascripts/property-editor.js:28 | every kept result is one of the input's results |
| `Validation.FailingAt` | public/javascripts/property-editor.js:28 | reference definition: the ascending positions of exactly the failing results |
| `Validation.FailingLength` | public/javascripts/property-editor.js:28 | the filter keeps as many results as there are failing positions |
| `Validation.FailingAtIndex` | public/javascripts/property-editor.js:28 | the k-th kept result is the result at the k-th failing position |
| `Validation.FailingInOrder` | public/javascripts/property-editor.js:28 | the filter's k-th element is the result at the k-th failing position, so order is kept and nothing else is kept |
| `Validation.ErrorDisplay` | public/javascripts/property-editor.js:26-41 | error class on iff some validation has `hasError`; the list is absent iff there is no error, and otherwise holds the failing messages in original order |
| `Binder.PropertyEditor.ProcessValidation` | public/javascripts/property-editor.js:26-42 | the wrapper's class and error list become the display of the current validations; visibility is untouched |
| `Binder.PropertyEditor.OnValidationChanged` | public/javascripts/property-editor.js:43-47 | only a notification for this very property object refreshes the display; others change nothing |
| `Binder.Shown` | public/javascripts/property-editor.js:53 | shown iff the value is truthy or not a boolean: only `false` hides, `0`, `""`, `null`, `undefined` do not |
| `Binder.PropertyEditor.OnPropertiesUpdated` | public/javascripts/property-editor.js:54-57 | visibility is recomputed from the sibling's current value only for the sibling's id; any other id leaves it alone |
| `Binder.PropertyEditor.constructor` | public/javascripts/property-editor.js:26-58 | a fresh wrapper starts with the display of the current validations and, when bound, the sibling's visibility; unbound it is visible |
| `Binder.KindOf` | public/javascripts/property-editor.js:67-300 | a type tag has an editor iff it is one of the eight registered keys, and the kind found is the one registered under that tag |
| `Binder.KindOfTag` | public/javascripts/property-editor.js:67-300 | every registered kind is found again under its own key |
| `Binder.Run` | public/javascripts/property-editor.js:24 | the tag's editor runs on this property: bound to it and its parent, in the state its constructor sets up (for `otherEditor` also the checkbox, the select's `disabled` flag and the value handed to the select); only `otherEditor` publishes at start-up, and every editor but `otherEditor` and `enum` keeps the value; `enum`'s start-up value is not modelled |
| `Binder.Bind` | public/javascripts/property-editor.js:12-61 | an unknown tag, a missing `bindTo` sibling or a missing `bindDisplayIf` sibling throws, and exactly those; otherwise binding succeeds, the tag's editor (`dateRange` the range editor) is bound to the property in its full start-up state (as for `Binder.Run`), and the wrapper shows the current errors and the sibling-driven visibility |
| `SimpleEditors.FieldText` | public/javascripts/property-editor.js:72 | the text field shows a truthy string value as is and any falsy value as the empty string |
| `SimpleEditors.TextEditor.constructor` | public/javascripts/property-editor.js:68-72 | the field starts with the value when it is a truthy string and empty otherwise |
| `SimpleEditors.TextEditor.Input` | public/javascripts/property-editor.js:73-77 | the value becomes the field's text and the id is published once |
| `SimpleEditors.BoolEditor.constructor` | public/javascripts/property-editor.js:97-99 | the box is checked iff the value is exactly `true` |
| `SimpleEditors.BoolEditor.Click` | public/javascripts/property-editor.js:100-104 | the box flips, the value becomes its new state, and the id is published once |
| `RangeEditor.RecordOf` | public/javascripts/property-editor.js:112-120 | the record carries exactly the four inputs' contents and is never `false` |
| `RangeEditor.Apply` | public/javascripts/property-editor.js:131-133 | an input change replaces only the input it happened in; the other three keep their contents |
| `RangeEditor.Init` | public/javascripts/property-editor.js:122-138 | toggle checked iff value `!== false`; inputs disabled iff value is `false` or null; a record loads the inputs so that they read back as that record; the state is consistent |
| `RangeEditor.Edit` | public/javascripts/property-editor.js:131-135 | after any input change the value is the full record the inputs show; consistency is kept |
| `RangeEditor.Toggle` | public/javascripts/property-editor.js:139-153 | the toggle flips, the inputs' contents are never cleared, the value is the record when enabled and `false` when disabled |
| `RangeEditor.ToggleRoundTrip` | public/javascripts/property-editor.js:139-153 | disable then enable (or enable then disable) restores the exact state, record included |
| `RangeEditor.UnsetValueToggle` | public/javascripts/property-editor.js:122-153 | a `null` value gives a checked toggle over disabled inputs; one click stores `false`, a second the inputs' record |
| `RangeEditor.LoadReadBack` | public/javascripts/property-editor.js:112-153 | a loaded record reads back unchanged, and a double toggle returns to the initial state |
| `RangeEditor.RangeEditor.constructor` | public/javascripts/property-editor.js:107-138 | the editor's state is `Init` of the value and the template's inputs |
| `RangeEditor.RangeEditor.Input` | public/javascripts/property-editor.js:131-135 | the state becomes `Edit` of the old one and the id is published once |
| `RangeEditor.RangeEditor.ClickEnabled` | public/javascripts/property-editor.js:137-153 | the state becomes `Toggle` of the old one and the id is published once |
| `OptionsEditor.Decimal` | public/javascripts/property-editor.js:318 | the numeral is non-empty, made of digits, without a leading zero, and its digits read back as n |
| `OptionsEditor.TitleReadBack` | public/javascripts/property-editor.js:318 | the title of position i is `Option ` followed by a numeral whose digits denote i + 1 |
| `OptionsEditor.TitlesDistinct` | public/javascripts/property-editor.js:318 | rows at different positions get different titles |
| `OptionsEditor.Renumbered` | public/javascripts/property-editor.js:313-319 | every item is titled `Option i+1` and striped even iff `i % 2 == 0`, over the same rows in the same order |
| `OptionsEditor.Renumber` | public/javascripts/property-editor.js:313-319 | the loop over the children computes exactly `Renumbered` |
| `OptionsEditor.Added` | public/javascripts/property-editor.js:194-201 | appending at index n keeps the old items, gives n+1 items over the old rows plus the new one, titles the new one `Option n+1`, and stripes it even iff n is even |
| `OptionsEditor.Dropped` | public/javascripts/property-editor.js:306-319 | removing item k leaves the other rows in order, retitled and restriped by position |
| `OptionsEditor.IndexOf` | public/javascripts/property-editor.js:309 | the first position holding the row, by identity, or -1 iff it is absent |
| `OptionsEditor.RemoveFromArray` | public/javascripts/property-editor.js:309 | removes one occurrence of the row by identity (as a multiset), nothing if absent, keeps rows distinct |
| `OptionsEditor.DroppedMatchesRemoval` | public/javascripts/property-editor.js:306-319 | removing a row by identity from distinct rows removes exactly the row at the item's position, so the renumbered list and the value stay in step and distinct |
| `OptionsEditor.WithText` | public/javascripts/property-editor.js:189-190 | a missing text becomes `{}`; a present one is kept |
| `OptionsEditor.Rendered` | public/javascripts/property-editor.js:187-193 | the first render gives one item per row, in order, titled and striped by position |
| `OptionsEditor.Render` | public/javascripts/property-editor.js:187-193 | the render loop gives every row a text, leaves `val` alone and builds exactly `Rendered` |
| `OptionsEditor.OptionsEditor.constructor` | public/javascripts/property-editor.js:186-193 | rows with `null` or `undefined` text get `{}`, others keep theirs; one numbered item per row, in order |
| `OptionsEditor.OptionsEditor.Add` | public/javascripts/property-editor.js:194-201 | appends a fresh `{text: {}, val: 'untitled'}` row and its item and publishes once; a value that is not a row array throws and nothing changes |
| `OptionsEditor.OptionsEditor.Remove` | public/javascripts/property-editor.js:306-322 | the row leaves the value by identity, the remaining items are renumbered, the id is published once |
| `OptionsEditor.OptionsEditor.EditValue` | public/javascripts/property-editor.js:323-331 | only that row's `val` changes, to the field's text, and the id is published once |
| `OtherEditor.Snapshot` | public/javascripts/property-editor.js:252-254 | one option per bound row, in order, showing the row's current value |
| `OtherEditor.Saved` | public/javascripts/property-editor.js:240 | `property.value[0]`, which is `undefined` for a `false` value |
| `OtherEditor.MatchIndex` | public/javascripts/property-editor.js:249-250 | the first option whose value equals the saved one, or -1 iff none does |
| `OtherEditor.Step` | public/javascripts/property-editor.js:245-250 | one iteration never replaces a remembered row; it adopts a row only when none is remembered and the row carries the saved string; the tracked value changes only to the remembered row's own value |
| `OtherEditor.Walk` | public/javascripts/property-editor.js:242-255 | the whole loop keeps a remembered row; a row it adopts is a listed row carrying the saved string |
| `OtherEditor.ScanRows` | public/javascripts/property-editor.js:242-255 | the loop writes one option per bound row and ends in the state `Walk` gives |
| `OtherEditor.WalkRemembered` | public/javascripts/property-editor.js:242-251 | with a row remembered the loop keeps it and takes its current value iff it is listed |
| `OtherEditor.WalkAdopts` | public/javascripts/property-editor.js:242-251 | with no row remembered the loop adopts the first row whose value is the saved one, and keeps the saved value |
| `OtherEditor.Resolve` | public/javascripts/property-editor.js:237-276 | publishing happens exactly when a single non-null value is set and handed to the select; otherwise the value is unchanged |
| `OtherEditor.Settle` | public/javascripts/property-editor.js:257-275 | after the loop it publishes exactly when the value is not `false` and a value was tracked or the list is non-empty; the published value is a single non-null value; otherwise value and remembered row are kept |
| `OtherEditor.ResolveDisabled` | public/javascripts/property-editor.js:257 | a `false` value, its remembered row and the publish log are left alone |
| `OtherEditor.ResolveFollowsRow` | public/javascripts/property-editor.js:240-264 | a listed remembered row wins with its current value, so the choice follows a rename |
| `OtherEditor.ResolveAdoptsMatch` | public/javascripts/property-editor.js:240-264 | with none remembered, the first row carrying the saved string becomes remembered and the value stays `[saved]` |
| `OtherEditor.ResolveFallsBack` | public/javascripts/property-editor.js:266-274 | with no saved string and no listed remembered row, a non-empty list gives the first row and `[list[0].val]` |
| `OtherEditor.ResolveKeepsSaved` | public/javascripts/property-editor.js:240-264 | a set saved string is re-saved when no remembered row is listed and none is adopted, even if no option offers it |
| `OtherEditor.ResolveLands` | public/javascripts/property-editor.js:237-276 | the value ends on a listed string iff the remembered row is listed, or the saved string is offered, or nothing is saved and the list is non-empty |
| `OtherEditor.ReEnable` | public/javascripts/property-editor.js:291-296 | re-enabling over a non-empty list selects the remembered row if listed, else the first row |
| `OtherEditor.StaleAfterRemoval` | public/javascripts/property-editor.js:240-264 | after the remembered row is removed the old string stays although the list no longer offers it |
| `OtherEditor.BoundFollowsRow` | public/javascripts/property-editor.js:240-264 | over an editor's bound rows, a remembered row still bound is selected under its current value |
| `OtherEditor.OtherEditor.constructor` | public/javascripts/property-editor.js:217-235 | forgets any row, syncs the checkbox and the select's `disabled` flag with the value and resolves once |
| `OtherEditor.OtherEditor.Update` | public/javascripts/property-editor.js:230-235 | checkbox checked iff value `!== false`, select disabled iff value `=== false`, then one resolution |
| `OtherEditor.OtherEditor.UpdateOptions` | public/javascripts/property-editor.js:237-276 | the loop's outcome is `Resolve` of the old value, remembered row and bound options; the options are rebuilt from the bound rows |
| `OtherEditor.OtherEditor.OnPropertiesUpdated` | public/javascripts/property-editor.js:278 | the bound property's id runs `updateOptions`, with its full outcome; any other id changes nothing; the checkbox and the select's `disabled` flag never change |
| `OtherEditor.OtherEditor.Choose` | public/javascripts/property-editor.js:280-289 | picking an option remembers its row and sets `[row.val]`, read from the row, publishing once; the select then shows that option's `value`; no selected option changes nothing; the options and both flags are kept |
| `OtherEditor.OtherEditor.ToggleEnable` | public/javascripts/property-editor.js:291-296 | unchecking stores `false`, which stays `false`; checking stores `[]` and resolves; the select shows the resolved value; the handler publishes once and the resolution possibly once more |

## Left out

- DOM and jQuery mechanics: template cloning, attributes, class toggling,
  element replacement and the reuse of detached `<option>` elements. Only their
  logical result is modelled. The initial contents of the range inputs come from
  the cloned template and are a parameter.
- Event dispatch: publishing appends the id to a ghost log. The listeners are
  methods a caller invokes with the published id. Delivery order and re-entrant
  delivery during a handler are not modelled.
- A text field's handler is bound to both `keyup` and `input` (the range inputs
  also to `change`, which fires on commit or blur), so one edit can run a handler
  more than once. Each method models one handler run.
- Binder.Run: the `enum` editor writes `property.value = $select.val()` at
  start-up, so a value no option carries becomes the first option, or `null`
  without options. The model does not capture that rewrite and promises nothing
  about an `enum` property's value after binding.
- Validation.ErrorDisplay: the source joins `'<li>' + message + '</li>'` pieces
  and appends the result as HTML, so a message is parsed as markup (`a</li><li>b`
  makes two items, `&lt;` shows as `<`). The model keeps each message as plain
  text, one item per failing result.
- Binder.Renderable: only the value shapes each editor is written for are
  modelled. A truthy non-string value of a `text` property (the source shows `5`
  as `"5"`) and a range value that is not `false`, nullish or a record are not
  modelled.
- `uiText` and `enum` editors, and the per-row `uiText` title editor, are not
  part of this model: they depend on the active-language service and on the
  browser's `<select>` rules. A row's title is modelled as the name given to that
  sub-editor.
- The jQuery UI date picker of `dateRange`. Only the delegation to the range
  editor is modelled.
- The options-overlay link and its whole-editor rebuild (lines 203-215): a foreign
  service plus a DOM rebuild.
- The `data-name` attribute and `property-<name>` class of the editor markup.
- `$.removeFromArray` lives outside this file. `OptionsEditor.RemoveFromArray` is
  assumed to remove the first occurrence by identity.
- OptionsEditor.OptionsEditor.constructor: assumes the saved rows are distinct
  objects. An array row list repeating one object is not modelled.
- OptionRow: `val` is a string. A `null` or `undefined` `val` is not modelled.
- OtherEditor.OtherEditor.constructor: assumes the dependent value is `false` or
  an array, and the bound property's value is a row array. The source does not
  throw for every other value. A string, a number or `true` as the dependent
  value gives a first character or `undefined` at `property.value[0]`, and the
  source goes on to resolve and publish. Only a `null` or `undefined` dependent
  value throws there. A `null` bound value throws at `.length` only when nothing
  was resolved. These shapes are not modelled.
- OtherEditor.Snapshot: gives one option per array slot. The source reuses the
  detached `<option>` of a row object, so a bound array that repeats one row
  object shows fewer options than it has slots. Such arrays are not modelled
  faithfully.
- Binder.KindOf: the editor registry is a plain object, so a tag naming an
  inherited `Object.prototype` member (`toString`, `constructor`,
  `hasOwnProperty`) finds a function there and does not throw. The model
  treats such tags as unknown and returns `Err`.
- OtherEditor.OtherEditor.UpdateOptions: `selection` records the value handed to
  `$select.val`, not what the browser then marks selected when no option has that
  value.
- Numbers are integers. Only `0` matters, for the visibility rule.
