# Design-system behaviour, modelled in Dafny

This project models the three pieces of a small React design system that carry logic rather than markup:

- **Toasts** (`toast.dfy`, module `Toasts`). `ToastProvider` holds the ordered list of notifications. `addToast` appends, `removeToast` filters by id and `removeAllToasts` clears. Each mounted `Toast` is a visible → leaving → gone state machine driven by an optional auto-dismiss timer and a 300 ms leave timer. A module-level facade (`toast.show/info/success/warning/error/dismiss/dismissAll`) forwards to a bound provider and does nothing while unbound.
- **Theme** (`theme.dfy`, module `Themes`). The rule that picks the initial theme from storage, the default and the OS preference. `updateTheme` rewrites the document root's `light`/`dark` class and persists the theme. `setTheme` and the OS-preference listener call it.
- **Text input** (`text_input.dfy`, module `TextInputs`). The local state (`localValue`, `showPassword`), its three event handlers, and the derived decisions: the rendered `type`, the clear button, the trailing slot, the error flag, the helper line, the displayed value, and the id slugged from the label.

`wrappers.dfy` defines `Option` and `Result`.

Environment inputs become explicit values:
- Timers are events (`AutoDismissTimerFires`, `LeaveTimerFires`, `Unmount`).
- The id generator's `Date.now()` and random suffix arrive as an `IdSeed`.
- `localStorage` is a `map<string, string>` and the root's class list a `set<string>`.
- The `prefers-color-scheme: dark` query is a boolean.
- Callbacks such as `onClear` and the caller's `onChange` are present/absent flags. A handler that calls them returns whether it did.

## Model

| member | source | states |
|---|---|---|
| `Toasts.ToastProvider.constructor` | src/components/design-system/feedback/toast.tsx:174-178 | The list starts empty; the position defaults to bottom-right. |
| `Toasts.ToastProvider.AddToast` | src/components/design-system/feedback/toast.tsx:181-185 | Exactly one toast is appended at the end, earlier toasts stay unchanged and in order, and the returned id is the one stored on it and is never empty. |
| `Toasts.ToastProvider.RemoveToast` | src/components/design-system/feedback/toast.tsx:188-190 | The new list is the old list filtered by id (`Without`). |
| `Toasts.ToastProvider.RemoveAllToasts` | src/components/design-system/feedback/toast.tsx:193-195 | The list is empty whatever it held. |
| `Toasts.ToastProvider.Mounted` | src/components/design-system/feedback/toast.tsx:218-230 | One mounted toast per list entry, in list order, each configured from its entry by `Configure`: its id and message, the provider's position instead of the caller's, and the defaults `info`, 5000 ms and dismissible where the entry leaves them out. |
| `Toasts.ToastProvider.MountAt` | src/components/design-system/feedback/toast.tsx:223-229 | The toast mounted for an entry is fresh, visible and carries that entry's configuration. An entry added without a duration gets an auto-dismiss timer. |
| `Toasts.Configure` | src/components/design-system/feedback/toast.tsx:38-43 | A mounted toast keeps its entry's id, title, message and action. A missing variant becomes `info`, a missing duration 5000 and a missing `dismissible` true; given values pass through. The position is the provider's. |
| `Toasts.WithVariant` | src/components/design-system/feedback/toast.tsx:264-276 | A severity helper's toast carries the message and the helper's variant, with title, duration, `dismissible`, action and position taken from the options. |
| `Toasts.Decimal` | src/components/design-system/feedback/toast.tsx:182 | `Date.now()` is written as a non-empty string of decimal digits. |
| `Toasts.ParseToastId` | src/components/design-system/feedback/toast.tsx:182 | A string parses only if it starts with `toast-`, and then its suffix is the tail of the id after a `-`. |
| `Toasts.ToastProvider.OnLeaveTimer` | src/components/design-system/feedback/toast.tsx:223-229 | A toast's leave timer, wired to `removeToast` through `onDismiss`: a pending timer hides the toast, uses up that timer and removes the toast's id from the list. With no pending timer neither the toast nor the list changes. |
| `Toasts.Without` | src/components/design-system/feedback/toast.tsx:189 | A toast survives the filter if and only if it was in the list and its id differs from the given id. |
| `Toasts.WithoutConcat` | src/components/design-system/feedback/toast.tsx:189 | Filtering distributes over concatenation, so survivors keep their relative order. |
| `Toasts.WithoutAbsent` | src/components/design-system/feedback/toast.tsx:188-190 | Removing an id that no toast carries leaves the list unchanged. |
| `Toasts.WithoutRemovesId` | src/components/design-system/feedback/toast.tsx:189 | After removal no toast carries the id. |
| `Toasts.WithoutIdempotent` | src/components/design-system/feedback/toast.tsx:188-190 | Removing the same id twice equals removing it once, so a duplicate `onDismiss(id)` has no extra effect. |
| `Toasts.WithoutCommutes` | src/components/design-system/feedback/toast.tsx:188-190 | Two removals give the same list in either order. |
| `Toasts.RemoveUndoesAdd` | src/components/design-system/feedback/toast.tsx:181-190 | Adding a toast with a fresh id and then removing that id restores the previous list. |
| `Toasts.WithoutKeepsDistinct` | src/components/design-system/feedback/toast.tsx:188-190 | If the ids were distinct before a removal, they are still distinct after it. |
| `Toasts.AppendKeepsDistinct` | src/components/design-system/feedback/toast.tsx:183 | Appending a toast with a fresh id keeps the ids distinct. |
| `Toasts.ToastId` | src/components/design-system/feedback/toast.tsx:182 | A generated id is never empty and starts with `toast-`. |
| `Toasts.ToastIdRoundTrip` | src/components/design-system/feedback/toast.tsx:182 | The timestamp and suffix can be read back from a generated id. |
| `Toasts.ToastIdInjective` | src/components/design-system/feedback/toast.tsx:182 | Two ids are equal if and only if their timestamp and suffix are equal, so uniqueness holds exactly as far as those pairs are unique. |
| `Toasts.UseToast` | src/components/design-system/feedback/toast.tsx:239-245 | Outside a provider the hook fails with its message; inside, it returns the nearest provider. |
| `Toasts.Toast.constructor` | src/components/design-system/feedback/toast.tsx:39-73 | A mounted toast is visible and not leaving. Exactly one auto-dismiss timer is pending unless the duration is 0. No leave timer is pending. |
| `Toasts.Toast.HandleDismiss` | src/components/design-system/feedback/toast.tsx:76-82 | Sets leaving and schedules one more leave timer; visibility and the auto timer are untouched. |
| `Toasts.Toast.CloseClicked` | src/components/design-system/feedback/toast.tsx:121-130 | The close button acts only on a mounted, rendered, dismissible toast, and then as `HandleDismiss`. |
| `Toasts.Toast.AutoDismissTimerFires` | src/components/design-system/feedback/toast.tsx:65-73 | A pending auto timer fires once and starts the dismissal; a cleared or fired one does nothing. The phase never goes back. |
| `Toasts.Toast.LeaveTimerFires` | src/components/design-system/feedback/toast.tsx:78-81 | A pending leave timer hides the toast and reports its id to `onDismiss`. Without one nothing happens. Visibility is never restored. |
| `Toasts.Toast.Unmount` | src/components/design-system/feedback/toast.tsx:72 | Unmounting clears the auto timer; pending leave timers remain. |
| `Toasts.Toast.Render` | src/components/design-system/feedback/toast.tsx:84-106 | A hidden toast renders nothing. A visible one shows its message and variant, shows its title exactly when the title is a non-empty string, shows the action exactly when there is one, fades out exactly while leaving, has a close button exactly when dismissible, and is assertive exactly for errors. |
| `Toasts.ToastFacade.constructor` | src/components/design-system/feedback/toast.tsx:248 | The facade starts unbound with nothing logged. |
| `Toasts.ToastFacade.SetToastContext` | src/components/design-system/feedback/toast.tsx:250-252 | Binds the facade to the given provider. |
| `Toasts.ToastFacade.Show` | src/components/design-system/feedback/toast.tsx:255-261 | Unbound: returns `""` and logs one error. Bound: appends the toast to the bound provider and returns its id, logging nothing. |
| `Toasts.ToastFacade.Notify` | src/components/design-system/feedback/toast.tsx:262-277 | `info`/`success`/`warning`/`error`. Unbound: return `""` and log nothing. Bound: append exactly one toast, whose props are the message, the helper's own variant and the caller's options, and return its id; earlier toasts are unchanged. |
| `Toasts.ToastFacade.Dismiss` | src/components/design-system/feedback/toast.tsx:278-281 | Bound: the provider's list is filtered by the id. Unbound: does nothing. |
| `Toasts.ToastFacade.DismissAll` | src/components/design-system/feedback/toast.tsx:282-285 | Bound: the provider's list is emptied. Unbound: does nothing. |
| `Themes.ParseTheme` | src/components/design-system/theme/theme-provider.tsx:4 | Exactly the strings `light`, `dark` and `system` name a theme. |
| `Themes.ThemeName` | src/components/design-system/theme/theme-provider.tsx:4 | Every theme's name parses back to that theme. |
| `Themes.SystemClass` | src/components/design-system/theme/theme-provider.tsx:75-77 | The OS preference selects `dark` exactly when it prefers dark, and otherwise `light`. |
| `Themes.AppliedClass` | src/components/design-system/theme/theme-provider.tsx:74-81 | `system` applies the class of the OS preference; `light` and `dark` apply themselves; the result is always a mode class. |
| `Themes.InitialThemeAsWritten` | src/components/design-system/theme/theme-provider.tsx:30-46 | A non-empty stored value wins verbatim. Otherwise a `system` default follows the OS preference and any other default is used as is. The result is `system` only when `system` was stored. |
| `Themes.InitialTheme` | src/components/design-system/theme/theme-provider.tsx:30-46 | A stored theme name wins. The result agrees with the rule as written whenever storage holds a theme name or nothing usable, and falls back to the default resolution otherwise. It is `System` only when `system` was stored. |
| `Themes.GetItem` | src/components/design-system/theme/theme-provider.tsx:32 | `getItem` yields a value exactly when the key is stored, and then the stored string. |
| `Themes.UpdatedClasses` | src/components/design-system/theme/theme-provider.tsx:69-81 | `system` leaves exactly the OS preference's class of the two mode classes. Any other name, taken as a single class token, is added, and a name that is not a mode class leaves no mode class. Every class other than the mode classes and the new name is kept as it was. |
| `Themes.UpdateSetsOneMode` | src/components/design-system/theme/theme-provider.tsx:68-82 | After the update the root holds exactly one of `light`/`dark` (the applied class), and every other class is unchanged. |
| `Themes.UncheckedStoredThemeLeavesNoMode` | src/components/design-system/theme/theme-provider.tsx:32-35 | A stored `blue` becomes the theme as written, and the update then leaves neither `light` nor `dark` on the root. |
| `Themes.UseTheme` | src/components/design-system/theme/theme-provider.tsx:99-107 | Never fails. Outside a provider it returns the default context (`system`, no-op setter); inside one it returns that provider's context. |
| `Themes.ThemeProvider.constructor` | src/components/design-system/theme/theme-provider.tsx:24-65 | The key defaults to `design-system-theme` and the default theme to `system`. The initial theme is resolved from storage, then applied once: it is stored and the root holds its single mode class. |
| `Themes.ThemeProvider.UpdateTheme` | src/components/design-system/theme/theme-provider.tsx:68-82 | Writes the theme verbatim (including `system`) under the key. Leaves exactly the applied mode class on the root, with other classes unchanged. |
| `Themes.ThemeProvider.SetTheme` | src/components/design-system/theme/theme-provider.tsx:84-89 | A changed theme is stored and applied. Setting the same theme changes nothing. The stored-value and single-mode-class invariant holds throughout. |
| `Themes.ThemeProvider.PreferenceChanged` | src/components/design-system/theme/theme-provider.tsx:52-56 | An OS preference change re-applies only a `system` theme. Any other theme leaves the root and storage untouched. The invariant holds. |
| `TextInputs.Initial` | src/components/design-system/inputs/text-input.tsx:62-64 | `localValue` starts as the `value` prop or `""`, and the password starts hidden. |
| `TextInputs.Changed` | src/components/design-system/inputs/text-input.tsx:67-72 | `handleChange` sets the local text to the typed text and leaves the password visibility alone. |
| `TextInputs.Cleared` | src/components/design-system/inputs/text-input.tsx:75-80 | `handleClear` empties the local text and leaves the password visibility alone. |
| `TextInputs.Toggled` | src/components/design-system/inputs/text-input.tsx:83-85 | `togglePasswordVisibility` flips the visibility and leaves the local text alone. |
| `TextInputs.ChangedAsWired` | src/components/design-system/inputs/text-input.tsx:126-151 | With a caller `onChange` the change leaves the state as it was; without one it is `handleChange`. |
| `TextInputs.EffectiveType` | src/components/design-system/inputs/text-input.tsx:88 | The type is `password` exactly for a password input whose password is hidden. A shown password renders as `text`. Other types pass through. |
| `TextInputs.ShouldShowClear` | src/components/design-system/inputs/text-input.tsx:91 | The clear button is wanted exactly when the input is clearable, enabled and its local text has positive length. |
| `TextInputs.HasError` | src/components/design-system/inputs/text-input.tsx:101 | The error state holds exactly when `isError` is set or the error text is non-empty. Without `isError`, the error state means the helper line is the error text. |
| `TextInputs.HasTrailingAction` | src/components/design-system/inputs/text-input.tsx:103 | A trailing action exists exactly when there is no caller icon and the input is a password input or wants the clear button. |
| `TextInputs.TrailingSlot` | src/components/design-system/inputs/text-input.tsx:154-182 | A trailing icon always takes the slot. Otherwise a password input gets the toggle, which beats the clear button. The clear button appears exactly when it applies to a non-password input. The slot is empty exactly when there is no action and no icon. |
| `TextInputs.HelperLine` | src/components/design-system/inputs/text-input.tsx:185-191 | The line is absent exactly when both texts are empty, and shows the error text in preference to the help text. |
| `TextInputs.DisplayedValue` | src/components/design-system/inputs/text-input.tsx:129 | A given `value` prop is shown, even `""`. Otherwise the local text is shown. On the first render both agree. |
| `TextInputs.HelperMatchesErrorState` | src/components/design-system/inputs/text-input.tsx:101 | Error text puts the field in the error state and is what the helper shows. A field not in the error state shows only its help text. |
| `TextInputs.ControlledValueWins` | src/components/design-system/inputs/text-input.tsx:129 | A field with a `value` prop displays that value whatever happens to the local text. |
| `TextInputs.InputId` | src/components/design-system/inputs/text-input.tsx:100 | A non-empty `id` prop is used as is. Otherwise the id is `text-input-` followed by a slug with no whitespace. |
| `TextInputs.ReplaceSpaceRuns` | src/components/design-system/inputs/text-input.tsx:100 | The result has no whitespace and is never longer than the label. |
| `TextInputs.DropSpaces` | src/components/design-system/inputs/text-input.tsx:100 | Splits off the maximal leading whitespace run. |
| `TextInputs.LowerChar` | src/components/design-system/inputs/text-input.tsx:100 | An ASCII capital becomes the letter 32 code points above it; every other character is kept. The result has no ASCII capital and whitespace stays whitespace. |
| `TextInputs.Lower` | src/components/design-system/inputs/text-input.tsx:100 | Lower-casing maps each character and keeps the length. |
| `TextInputs.ReplaceWithoutSpaces` | src/components/design-system/inputs/text-input.tsx:100 | Text without whitespace passes through unchanged. |
| `TextInputs.ReplaceIdempotent` | src/components/design-system/inputs/text-input.tsx:100 | Replacing the runs twice equals replacing them once. |
| `TextInputs.ReplaceRunPrefix` | src/components/design-system/inputs/text-input.tsx:100 | A maximal leading whitespace run, of any length, becomes a single `-`. |
| `TextInputs.ReplaceWordPrefix` | src/components/design-system/inputs/text-input.tsx:100 | Characters that are not whitespace are copied through in place. |
| `TextInputs.ReplaceBetweenWords` | src/components/design-system/inputs/text-input.tsx:100 | Two words separated by any maximal whitespace run become the words joined by one `-`. |
| `TextInputs.LowerCommutesWithReplace` | src/components/design-system/inputs/text-input.tsx:100 | Lower-casing before or after the replacement gives the same slug. |
| `TextInputs.LabelsCollide` | src/components/design-system/inputs/text-input.tsx:100 | Labels that differ only in case and in the length of their whitespace runs get the same id. |
| `TextInputs.ToggleTwice` | src/components/design-system/inputs/text-input.tsx:83-85 | Toggling twice restores the state; on a password input one toggle always changes the rendered type. |
| `TextInputs.ClearHidesButton` | src/components/design-system/inputs/text-input.tsx:75-80 | After clearing, the clear button is hidden and an uncontrolled field shows `""`. |
| `TextInputs.ChangeDisplaysTypedText` | src/components/design-system/inputs/text-input.tsx:67-72 | Through `handleChange`, an uncontrolled field shows exactly the typed text. The clear button then shows exactly when the input is clearable, enabled and the text is non-empty. |
| `TextInputs.CallerOnChangeFreezesInput` | src/components/design-system/inputs/text-input.tsx:126-151 | As wired, an uncontrolled field with a caller `onChange` keeps showing `""` after the user types `a`. Through `handleChange` it would show `a`. |
| `TextInputs.ControlledFieldHidesWiring` | src/components/design-system/inputs/text-input.tsx:126-151 | A field with a `value` prop shows the same after a change however it is wired. An uncontrolled field with a caller `onChange` keeps showing its old text. Without a caller `onChange`, the wiring is invisible. |
| `TextInputs.TextInput.constructor` | src/components/design-system/inputs/text-input.tsx:62-64 | The instance starts in the `Initial` state for its props. |
| `TextInputs.TextInput.HandleChange` | src/components/design-system/inputs/text-input.tsx:67-72 | Stores the new text and forwards to the caller's `onChange` exactly when there is one. |
| `TextInputs.TextInput.HandleClear` | src/components/design-system/inputs/text-input.tsx:75-80 | Empties the local text, which hides the clear button, and calls `onClear` exactly when there is one. |
| `TextInputs.TextInput.TogglePasswordVisibility` | src/components/design-system/inputs/text-input.tsx:83-85 | Flips `showPassword`, with `localValue` unchanged. |

Behaviour of the code a reader may not expect (the model follows the code):
- `handleDismiss` has no guard. A second call, for example a click during the exit animation, schedules another leave timer, so `onDismiss(id)` fires twice. `WithoutIdempotent` shows the second call changes nothing.
- `toast.dismiss(id)` and `removeToast` remove the entry at once, without the leave animation.
- The provider passes its own `position` to every toast, overriding a per-call position. It also passes `removeToast` as `onDismiss`, so a caller's `onDismiss` never runs.
- With `system` as the default and nothing stored, the resolved `light`/`dark` is stored on mount. The theme is then not `system`, so later OS preference changes are not followed.

## Findings

| source | as written | input that shows it | evidently intended | confidence | as-written member | corrected member |
|---|---|---|---|---|---|---|
| src/components/design-system/inputs/text-input.tsx:126-151 | `{...props}` is spread after `onChange={handleChange}`, so a caller's `onChange` replaces `handleChange` | `value` undefined, caller `onChange` given, user types `a`: `localValue` stays `""`, the field shows `""` and the clear button never appears | every change runs `handleChange`, which updates `localValue` and forwards to the caller's `onChange` (lines 67-72) | medium; not executed | `TextInputs.CallerOnChangeFreezesInput` | `TextInputs.TextInput.HandleChange` |
| src/components/design-system/theme/theme-provider.tsx:32-35 | the stored string is cast to `Theme` unchecked and wins whenever it is non-empty | storage holds `blue`: the theme becomes `blue` and the root gets class `blue` with neither `light` nor `dark`; a stored value with whitespace, such as `light dark`, makes `classList.add` throw after the old mode class is removed | only `light`, `dark` and `system` are accepted from storage; anything else falls back to the default resolution, so exactly one mode class is always present | medium; not executed | `Themes.UncheckedStoredThemeLeavesNoMode` | `Themes.InitialTheme` |

`Themes.ThemeProvider` resolves its initial theme with `InitialTheme`. `ChangeDisplaysTypedText` states the intended `handleChange` behaviour.

## Left out

- JSX markup, icons, style classes and `cn`. Only the decisions they encode are modelled.
- ARIA attributes, except whether a toast is announced assertively.
- The portal element created and removed by the toast provider. It is a DOM side effect.
- Real `setTimeout`/`clearTimeout` and durations. Timers are events, so the model does not state when they fire (5000 ms after mount by default, 300 ms after a dismissal). A negative `duration` is treated like any non-zero one.
- Id generation from `Date.now()` and `Math.random()`. It is an `IdSeed` oracle. Uniqueness is proved only relative to distinct seeds (`ToastIdInjective`), and the base-36 shape of the suffix is not modelled.
- React rendering and batching. A `ToastProvider` list entry and its mounted `Toast` are linked only through `OnLeaveTimer` and `Mounted`. Removing an entry does not call `Toast.Unmount` automatically.
- Subscribing and unsubscribing the OS-preference listener. `PreferenceChanged` is the listener firing while mounted.
- A stored string that is not a theme name as the provider's state. The provider resolves with the corrected `InitialTheme`; the code's verbatim result is modelled only in `InitialThemeAsWritten`.
- The order of classes in the root class list. It is a set.
- `Themes.UpdatedClasses`: a theme string that is not a single class token (one containing whitespace, which only the unchecked stored cast at theme-provider.tsx:32-35 can produce) makes `classList.add` at theme-provider.tsx:80 throw after the removal at :70 and the `setItem` at :72 have run. The model adds the string as one set element instead.
- `Toasts.ToastProvider.AddToast`: the input is modelled at its declared shape. The source spreads the caller's object after the generated id (toast.tsx:183), so an object that also carries an `id` key would keep that id instead; the returned id would then name no stored toast.
- `Toasts.WithVariant`: the options are modelled at their declared shape. The source spreads them after the message and the fixed variant (toast.tsx:264-276), so options that also carry a `message` or `variant` key would replace the helper's message or variant.
- A `Toast` rendered on its own through the default export, with a caller `onDismiss`. Only toasts mounted by the provider are modelled, whose `onDismiss` is always `removeToast`; a leave timer's report goes to `OnLeaveTimer`.
- What a toast's title or action renders beyond its presence. A title that is not a string is not modelled.
- Numeric and array `value` props of the text input. Only string values are modelled, so the `typeof localValue === 'string'` test always holds.
- Unicode whitespace and non-ASCII case mapping in the id slug. Only ASCII whitespace and `A`–`Z` are modelled.
- The element `id` attribute when a caller passes `id`. The spread props set it, which differs from `inputId` when `id` is `""`.
- Checkbox, typography, alert, theme switcher, the demo page and the app shell. They map props to markup.
