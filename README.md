# react-dsfr theming and `Tag`: a verified model

This project models the logic inside two files of react-dsfr, the React binding of the French government design system (DSFR):

- `src/mui.tsx` adapts the design tokens to a MUI theme. The model covers five parts of it:
  - the `spacing` function over the spacing scale;
  - the `type` of the favicon `<link>`, and the choice of favicon URL;
  - the `MuiDataGrid` `root` override, which installs an even/odd row-class wrapper at most once;
  - the custom-branding reconciliation, which forces a non-government theme back to the government spacing, breakpoints, pagination overrides and typography;
  - the `useIsGov` guard.
- `src/Tag.tsx` renders the DSFR tag as an anchor, a button or a paragraph. The model covers its class list, its element choice and the precedence of its attributes.

Modules, one per component:

- `Wrappers` holds `Option` (for `undefined`) and `Result` (for a thrown error).
- `JsStrings` holds the JavaScript string operations the code uses: `startsWith`, `split(sep)[0]`, `split(c).pop()` and ASCII `toLowerCase`.
- `MuiSpacing`, `MuiFavicon`, `MuiDataGrid` and `MuiBranding` hold the parts of `src/mui.tsx`.
- `Tag` holds `src/Tag.tsx`.

The source code updates the data-grid owner state, the set of installed wrappers and the theme in place. Those parts are classes with `modifies` clauses: `MuiDataGrid.RootOverride`, `MuiDataGrid.OwnerState`, `MuiDataGrid.FunctionHeap` (the identities of the function objects created so far), `MuiBranding.Theme` and `MuiBranding.Palette`. Each state-changing method is tied to a pure function (`Install`, `Reconciled`), and the properties are proved about that function. The spacing scale is built by a loop in the source, so `BuildScale` is a method with a loop. Everything else is pure functions and lemmas.

In these places the code does something easy to misread, and the model follows the code:

- **`data:` URLs.** The favicon type of a `data:` URL is `url.split("data:")[1].split(",")[0]`. So it stops at the first `,`, or at a second `data:` if one comes earlier. For `data:image/png;base64,...` the type keeps the `;base64` marker.
- **The `isGov` marker.** The marker is deleted only when it is truthy. A marker the application set to `false` survives, although it never survives as `true`.
- **`cx`.** `cx` drops every falsy part, and the empty string is falsy. So an empty `iconId` adds neither itself nor `fr-tag--icon-left`.
- **Row-class wrappers across themes.** The set of installed wrappers belongs to one override, and every theme builds its own override. So an owner state whose function was wrapped under one theme (the light one, say) is wrapped again under the next (the dark one), and its rows get the parity twice. The model gives each created function its own identity to capture this.
- **Parity.** The parity test `index % 2 === 0` gives the same answer under JavaScript's truncating `%` as under Dafny's Euclidean `%`, because a remainder is zero under one exactly when it is zero under the other.

## Model

| member | source | states |
|---|---|---|
| `MuiSpacing.IsScaleKey` | src/mui.tsx:131 | `key.endsWith("w")` holds iff the key is non-empty and its last character is `w` |
| `MuiSpacing.ScaleValues` | src/mui.tsx:127-134 | the scale has at most one value per token |
| `MuiSpacing.BuildScale` | src/mui.tsx:127-134 | the `forEach` loop produces exactly the values of the keys ending in `w`, in declaration order |
| `MuiSpacing.ScaleValuesMembers` | src/mui.tsx:130-133 | a value is in the scale iff some token whose key ends in `w` carries it |
| `MuiSpacing.ScaleValuesPrefix` | src/mui.tsx:129-134 | declaration order is kept: the scale of a prefix of the token table is a prefix of the scale |
| `MuiSpacing.ScaleStepOfToken` | src/mui.tsx:127-144 | `spacing(n)` returns the value of the n-th `w` token in declaration order |
| `MuiSpacing.Spacing` | src/mui.tsx:136-144 | a string is returned unchanged; `0` gives `0`; an integral `n` with `1 <= n <= |values|` gives `values[n-1]`; any other number (fractional, negative, past the end) is returned unchanged |
| `MuiSpacing.SpacingRange` | src/mui.tsx:136-144 | every result is the argument itself or one of the scale values |
| `MuiSpacing.SpacingIdempotent` | src/mui.tsx:136-144 | applying `spacing` to its own result changes nothing |
| `JsStrings.StartsWith` | src/mui.tsx:476 | `startsWith(p)` holds iff `p` is no longer than the string and agrees with it character by character |
| `JsStrings.IndexOf` | src/mui.tsx:477 | the first occurrence of the separator at or after a position, none before it |
| `JsStrings.SplitHead` | src/mui.tsx:477 | `split(sep)[0]` is the prefix before the first occurrence of `sep`, or the whole string |
| `JsStrings.AfterLast` | src/mui.tsx:479 | `split(".").pop()` is a suffix free of `.` that is preceded by `.` or is the whole string |
| `JsStrings.AfterLastUnique` | src/mui.tsx:479 | those three facts determine the text after the last `.` uniquely |
| `JsStrings.ToLower` | src/mui.tsx:479 | `toLowerCase` keeps the length |
| `JsStrings.ToLowerChars` | src/mui.tsx:479 | each ASCII upper-case letter becomes its lower-case letter, every other character is kept, and no ASCII upper-case letter remains |
| `JsStrings.ToLowerIdempotent` | src/mui.tsx:479 | lower-casing twice is lower-casing once |
| `JsStrings.AfterLastToLower` | src/mui.tsx:479 | lower-casing commutes with taking the text after the last `.` |
| `JsStrings.OccursAtChar` | src/mui.tsx:477 | a one-character separator occurs exactly where that character is |
| `MuiFavicon.ExtensionType` | src/mui.tsx:479-488 | `svg` gives `image/svg+xml`, `png` gives `image/png` and `ico` gives `image/x-icon`, each iff; every other extension gives the unsupported-type error |
| `MuiFavicon.FaviconType` | src/mui.tsx:475-489 | a `data:` URL never throws, and its type is the text after the prefix up to the first `,` or next `data:`; any other URL succeeds iff the lower-cased text after the last `.` is `svg`, `png` or `ico`, and then gets `image/svg+xml`, `image/png` or `image/x-icon` respectively; otherwise it throws the unsupported-type error |
| `MuiFavicon.DataUrlTypeUnique` | src/mui.tsx:476-478 | that description of a `data:` URL's type admits exactly one string |
| `MuiFavicon.DataUrlTypeKeepsParameters` | src/mui.tsx:476-478 | for `data:<m>,<payload>` with no `data:` inside `m`, the type is all of `m`, so a `;base64` marker stays |
| `MuiFavicon.FaviconTypeByExtension` | src/mui.tsx:479-488 | outside `data:` URLs the result depends only on the lower-cased text after the last `.`: `image/svg+xml`, `image/png`, `image/x-icon`, otherwise the unsupported-type error |
| `MuiFavicon.FaviconTypeWithoutDot` | src/mui.tsx:479 | a URL without `.` is judged on the whole string |
| `MuiFavicon.FaviconTypeIgnoresCase` | src/mui.tsx:479 | upper-case extensions are accepted: lower-casing the URL does not change its type |
| `MuiFavicon.FaviconUrl` | src/mui.tsx:504-507 | the user's favicon URL when given, otherwise the Marianne favicon for the government theme and the blank favicon otherwise |
| `MuiFavicon.FallbackFaviconTypeSucceeds` | src/mui.tsx:504-507 | with no user favicon and SVG assets, the type computation never throws, and gives `image/svg+xml` for a non-`data:` asset URL |
| `MuiDataGrid.ParityClassName` | src/mui.tsx:262-265 | `even` iff the row index is even, `odd` otherwise |
| `MuiDataGrid.RowClassName` | src/mui.tsx:259-272 | a wrapper always returns a class starting with the row's parity; an application function returns what it returns |
| `MuiDataGrid.WrapperClassName` | src/mui.tsx:267-271 | the wrapper returns the parity alone when there is no original function or it returns `undefined`, otherwise the parity, one space, then the original class |
| `MuiDataGrid.WrappedRepeatsParity` | src/mui.tsx:253-274 | wrapping n+1 times repeats the parity n+1 times, which is why a wrapper must not be wrapped again |
| `MuiDataGrid.Install` | src/mui.tsx:253-275 | the set only grows; afterwards `getRowClassName` is a member of it; a function already in the set is left alone, any other is wrapped in a new function object and that wrapper added |
| `MuiDataGrid.InstallIdempotent` | src/mui.tsx:253-275 | a second call on the same owner state changes neither the set nor `getRowClassName` |
| `MuiDataGrid.ForeignWrapperIsWrapped` | src/mui.tsx:234-274 | a wrapper created by another override is not in this override's set, so it is wrapped again and the parity is repeated |
| `MuiDataGrid.SuppliedIsWrapped` | src/mui.tsx:253-274 | an application-supplied function is always wrapped, and the wrapper prefixes the parity to its class |
| `MuiDataGrid.RootOverride.constructor` | src/mui.tsx:234-238 | the closure starts with an empty set and one `{ border: "none" }` object |
| `MuiDataGrid.RootOverride.Root` | src/mui.tsx:247-277 | every call returns the same `borderNone` object; without an owner state nothing changes; otherwise the set and `getRowClassName` become what `Install` gives, and a wrapper it creates takes the heap's next function identity, which then advances |
| `MuiDataGrid.RenderTwice` | src/mui.tsx:249-277 | two calls on the same owner state return the same `{ border: "none" }` object and wrap its function exactly once, so row 3 gets `odd` before the application's class |
| `MuiDataGrid.RenderAcrossThemes` | src/mui.tsx:233-277 | an owner state wrapped by one theme's override and then styled by another theme's override is wrapped twice, so row 3 gets `odd odd` before the application's class |
| `MuiBranding.DeepAssign` | src/mui.tsx:443-448 | the result has the keys of target and source, and keeps every target key the source lacks |
| `MuiBranding.DeepAssignSourceWins` | src/mui.tsx:443-448 | every primitive of the source is at the same path in the result |
| `MuiBranding.DeepAssignKeepsTarget` | src/mui.tsx:443-448 | the merge is deep: every primitive of the target that the source does not reach stays at its path, even inside a key both sides hold as objects |
| `MuiBranding.DeepAssignSelf` | src/mui.tsx:443-448 | assigning an object into itself leaves it unchanged |
| `MuiBranding.DeepAssignIdempotent` | src/mui.tsx:443-448 | assigning the same source twice equals assigning it once |
| `MuiBranding.GovTypographyWithFont` | src/mui.tsx:450-453 | the government typography with the application's `fontFamily` in place of its own |
| `MuiBranding.Reconciled` | src/mui.tsx:425-454 | `isGov` iff the marker is `true`; the marker never remains `true`; a government-derived theme only loses the marker; otherwise spacing and breakpoints are the government's, every `MuiTablePagination` primitive of the government theme is present, the component keys are the application's plus `MuiTablePagination`, other components are kept, the application's own `MuiTablePagination` primitives that the government override does not reach are kept, and the typography is the government's except for the application's `fontFamily` |
| `MuiBranding.ReconciledIdempotent` | src/mui.tsx:436-454 | reconciling a custom theme a second time changes nothing |
| `MuiBranding.MarkGovernmentTheme` | src/mui.tsx:418 | the government theme gets `palette.isGov = true` and nothing else changes |
| `MuiBranding.Reconcile` | src/mui.tsx:425-456 | the in-place updates of the theme and its palette produce exactly `Reconciled` of the old theme and government theme, and return its `isGov` |
| `MuiBranding.UseIsGov` | src/mui.tsx:589-597 | outside a provider it throws; inside, it returns the provided flag |
| `MuiBranding.UseIsGovInsideProvider` | src/mui.tsx:577-578 | inside the branding provider the hook reports whether the returned theme carried the marker |
| `Tag.Cx` | src/Tag.tsx:113-123 | the class list contains no empty class name and no more names than parts |
| `Tag.CxAppend` | src/Tag.tsx:113-123 | `cx` keeps the order of its parts |
| `Tag.CxMembers` | src/Tag.tsx:113-123 | a name is in the list iff some part holds it, and duplicates are not removed |
| `Tag.Modifiers` | src/Tag.tsx:114-120 | `fr-tag`, then `fr-tag--sm` when `small`, the icon and `fr-tag--icon-left` when `iconId` is given, and `fr-tag--dismiss` when `dismissible`, in that order |
| `Tag.ModifierMembers` | src/Tag.tsx:113-120 | with an icon class as `iconId`: `fr-tag` is always present; `fr-tag--sm` iff `small`, which defaults to false; `iconId` and `fr-tag--icon-left` iff an icon is given; `fr-tag--dismiss` iff `dismissible`, which defaults to false |
| `Tag.TagClassName` | src/Tag.tsx:113-123 | the modifiers, then the link's class, then `className` last; the list starts with `fr-tag` |
| `Tag.ParagraphProps` | src/Tag.tsx:125 | `nativeParagraphProps` takes precedence over the deprecated `nativeSpanProps` |
| `Tag.MergedStyle` | src/Tag.tsx:135-138 | explicit `style` keys override native-props style keys; all other native keys are kept; no other key appears |
| `Tag.RenderElement` | src/Tag.tsx:127-179 | `id` is the explicit id, else the native-props id, else the generated one; `title` is the explicit title, else the native-props title; the native class precedes the tag's classes; the styles are merged; the other native attributes are spread onto the element; on a button, `onClick` overrides the native handler and `aria-pressed` is `pressed`, whatever the native props say |
| `Tag.Render` | src/Tag.tsx:125-181 | an anchor iff `linkProps` is given, a button iff `nativeButtonProps` is given, a paragraph iff neither is; each element is built from its own variant's props: `linkProps`, `nativeButtonProps`, or `nativeParagraphProps ?? nativeSpanProps` |
| `Tag.RenderedFromVariant` | src/Tag.tsx:125-176 | per kind, the fallback `id` and `title` and the spread attributes come from that kind's props; the button's `onClick` overrides `nativeButtonProps.onClick`; the paragraph uses `nativeParagraphProps` and the span props only when those are absent |
| `Tag.ExactlyOneElement` | src/Tag.tsx:129-164 | when the props select one variant, exactly one element is rendered, of that kind |
| `Tag.BothVariantsRenderTwo` | src/Tag.tsx:129-163 | the exclusivity is not checked at run time: given both, an anchor and a button are rendered |
| `Tag.AnchorRepeatsLinkClassName` | src/Tag.tsx:121-134 | an anchor carries `linkProps.className` twice |

## Left out

- React machinery is left out: `memo`, `forwardRef`, `useMemo`, `useEffect`, contexts and the provider components. So are `children` and `ref`, which are only passed through.
- The DOM side of `useFavicon` is left out: removing the old `<link>` elements, appending the new one and the cleanup. The model covers only the `type` it computes.
- Most of `getMuiDsfrThemeOptions` is left out. Its palette, shadows, typography selection and component-override literals are static token copying. Two of its closures are modelled: the `spacing` function and the `MuiDataGrid` `root` style override.
- The Emotion `Global` styles and the CSS custom properties of the branding provider are left out. They are static styling data.
- `mui.createTheme`, `createMuiDsfrTheme`, `fr.colors.getHex` and the generated `typography` and `spacingTokenByValue` tables are opaque inputs. So are `getAssetUrl`, `getLink`, `useAnalyticsId` and the application's `createMuiTheme`. The favicon asset URLs, the generated id and the application's returned theme are parameters.
- `structuredCloneButFunctions`, `deepAssign` and `cx` are not part of this model:
  - a clone is modelled as the same value;
  - `deepAssign` is modelled as a recursive merge in which the source wins, with arrays treated as plain values;
  - `cx` is modelled as the ordered list of its kept parts, and joining them with spaces is not modelled.
- `MuiBranding.GovTypographyWithFont`: the application's `fontFamily` replaces only the top-level key. Whether `structuredCloneButFunctions` also passes nested `fontFamily` keys to the mapper is not modelled.
- `MuiBranding.Reconciled`: the `MuiTablePagination` merge is stated for primitives at their paths, from both sides. Aliasing of nested objects between the application's theme and the government theme is not modelled, because `deepAssign` mutates its target. Aliasing of `palette` is modelled.
- `MuiBranding.Reconcile`: it requires the government theme to define `MuiTablePagination`, which `getMuiDsfrThemeOptions` always does. The source asserts `components` with `!`.
- `MuiBranding.Palette`: the marker is `Option<bool>`. Other truthy values a theme could hold there are not modelled.
- `MuiSpacing.Spacing`: a JavaScript number is modelled as a real number. `NaN`, the infinities and `-0` are not modelled.
- `MuiDataGrid.ParityClassName`: non-integral row indices are not modelled.
- `MuiDataGrid.RootOverride.Root`: a function's identity is a serial number drawn from a `FunctionHeap` that all overrides share. The model does not prove that no function already carries the next serial: a caller that builds owner states with made-up wrappers could break that.
- `JsStrings.ToLower`: `toLowerCase` is modelled on ASCII letters only. Two non-ASCII characters lower-case to text containing an ASCII letter: the Kelvin sign becomes `k`, and the dotted capital I becomes `i` plus a combining dot. Neither can produce exactly `svg`, `png` or `ico`, so the favicon decision is unaffected.
- The type-level exclusivity of the `Tag` prop variants is a precondition of `Tag.ExactlyOneElement` only. `Tag.Render` handles every combination, as the code does.
