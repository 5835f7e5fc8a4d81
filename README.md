# LemOn storefront scripts, modelled in Dafny

The storefront is a set of browser scripts over a rebranded copy of an
Apple-style site. This project models what six of them compute and which
state they change:

- **store.js** (`AppleStore`) keeps a bag of line items. Adding a product
  either bumps the quantity of its line or appends a new line of one. The
  script then recomputes the total, renders a badge with the sum of
  quantities and saves the bag under `appleStoreCart`. Removing a product
  filters its line out. Checkout empties the bag.
- **phone.js** (`IPhonePage`) has its own copy of the add logic, working
  directly on storage under `shoppingCart`. Its badge shows the number of
  lines, not the number of units.
- **main-nav.js** (`MainNavigation`) reads the same `shoppingCart` badge as
  phone.js and points store links at `store.html`.
- **Both pages** share the exclusive `active` marking of navigation links.
- **apple-nav.js** (`AppleNavigation`) keeps the current tab and marks at
  most one tab and at most one content section active: none when no element
  carries the tab's name. Arrow keys cycle through a fixed
  list of five tab names; Home and End jump to fixed tabs.
- **update-branding.js** (`BrandingUpdater`) applies an ordered table of 33
  replace-all rules to:
  - every text node;
  - the `data-product` and `data-category` attributes, with the rules
    lowercased;
  - `alt`, `title` and `aria-label`.
- **remove-specific-sections.js** (`SpecificSectionRemover`) runs five
  removal passes over the navigation elements. `isTargetSection` is a
  look-up helper beside them.

Modules and their files:

| file | module | what |
|---|---|---|
| wrappers.dfy | `Wrappers` | the `Option` type |
| text.dfy | `Text` | `includes`, global replace of a literal pattern, ASCII `toLowerCase`, `trim` |
| cart.dfy | `Cart` | line items, find/merge/filter, totals, the storage slots |
| store.dfy | `Store` | the store page's `AppleStore` class |
| phone.dfy | `Phone` | the phone page's `IPhonePage` class |
| links.dfy | `Links` | the exclusive `active` marking of `.nav-link` elements |
| main_nav.dfy | `MainNav` | the `MainNavigation` class and store-link rewriting |
| apple_nav.dfy | `Tabs` | the `AppleNavigation` class and its keyboard handling |
| branding.dfy | `Branding` | the mapping table, the replacement passes, the `BrandingUpdater` class |
| branding_examples.dfy | `BrandingExamples` | worked rebranding examples on concrete strings |
| sections.dfy | `Sections` | the five removal passes, the `SectionRemover` class, `isTargetSection` |

Modelling choices:

- **Imperative code stays imperative.** Sources that update object fields
  become classes with `modifies` clauses. Loops over collections become
  `while` loops with invariants. Each method is proved against a function
  (`Merge`, `RemoveId`, `Rebrand`, `Keep`, …), and the properties are proved
  about those functions.
- **The page is flat.** It is a list of elements seen through the selectors
  the scripts use. Storage is a class holding a map from keys to bags, and
  the JSON round trip is lossless.
- **No I/O.** Timers, `console.log`, notifications and alerts are not
  modelled.

## Model

| member | source | states |
|---|---|---|
| Cart.IndexOfId | store.js:56 | `find` by id: None exactly when no line has the id; otherwise the first line with it |
| Cart.FindItem | store.js:56 | the front-to-back scan returns the same position as `IndexOfId` |
| Cart.Merge | store.js:55-67 | a known id gets one more unit on its first line and nothing else changes; an unknown id appends a line of quantity 1 with the given name and price |
| Cart.RemoveId | store.js:76 | `filter`: no line left has the id, and every line left was in the bag |
| Cart.RemoveIdMembers | store.js:76 | the lines left are exactly the bag's lines with another id |
| Cart.RemoveIdAppend | store.js:76 | filtering keeps order: it distributes over concatenation |
| Cart.RemoveAbsent | store.js:76 | removing an id no line has changes nothing |
| Cart.RemovePresent | store.js:76 | in a bag with unique ids, removing a present id cuts out exactly its line |
| Cart.RemoveTotals | store.js:75-85 | removing a present id lowers the total by that line's price × quantity and the unit count by its quantity |
| Cart.RemoveWellFormed | store.js:76 | removal keeps ids unique and quantities at least 1 |
| Cart.TotalNonnegative | store.js:83-85 | the `reduce` total is at least 0 when no price and no quantity is negative |
| Cart.QuantitiesNonnegative | store.js:94 | the `reduce` unit count is at least 0 when no quantity is negative |
| Cart.TotalAppend | store.js:83-85 | the total of a concatenation is the sum of the totals |
| Cart.QuantitiesAppend | store.js:94 | the unit count of a concatenation is the sum of the counts |
| Cart.MergeTotals | store.js:55-69 | an add raises the total by one unit price (the stored price of a bumped line, the given price of a new one) and the unit count by 1 |
| Cart.MergeLineCount | store.js:56-67 | the line count grows by 1 for a new id and stays the same for a known one |
| Cart.MergeWellFormed | store.js:55-67 | an add keeps ids unique and quantities at least 1 |
| Cart.ReplayWellFormed | store.js:55-80 | unique ids and positive quantities hold across any sequence of adds and removes |
| Cart.LineCountAtMostQuantities | phone.js:50 | with positive quantities the line badge never exceeds the unit badge, and the unit count is 0 exactly for an empty bag |
| Cart.AddTwiceThenRemove | store.js:55-80 | adding one product twice and then removing it leaves an empty bag with total 0 and count 0 |
| Cart.BadgesDisagree | phone.js:50 | after adding one product twice, the unit badge reads 2 and the line badge reads 1 |
| Cart.LocalStorage.GetItem | store.js:354 | a stored value, or None under an unused key |
| Cart.LocalStorage.SetItem | store.js:350 | writes one key and leaves the others as they were |
| Store.ProductName | store.js:143-154 | a listed id gets its table name; any other id is returned as it is (ids naming inherited `Object.prototype` members are not modelled) |
| Store.AppleStore.constructor | store.js:4-15 | starts empty, then holds the saved bag if there is one; total and badge agree with it |
| Store.AppleStore.AddToCart | store.js:55-73 | the bag becomes `Merge` of the old bag under the table name; total and badge are recomputed; the bag is saved under `appleStoreCart`; unique ids are kept |
| Store.AppleStore.AddLine | store.js:56-67 | the find-then-bump-or-push step computes `Merge` |
| Store.AppleStore.RemoveFromCart | store.js:75-80 | the bag becomes `RemoveId` of the old bag; total and badge are recomputed; the bag is saved; unique ids are kept |
| Store.AppleStore.UpdateCartTotal | store.js:82-86 | the total is the sum of price × quantity |
| Store.AppleStore.UpdateCartDisplay | store.js:88-98 | the badge shows the sum of quantities and is displayed exactly when that sum is positive |
| Store.AppleStore.SaveCartToStorage | store.js:349-351 | the bag is written under `appleStoreCart` and nothing else changes |
| Store.AppleStore.LoadCartFromStorage | store.js:353-360 | a saved bag replaces the current one and total and badge follow it; with nothing saved, all fields are kept |
| Store.AppleStore.Checkout | store.js:362-378 | an empty bag changes nothing. Otherwise the outcome holds the old total and lines, the bag is emptied, the badge reads 0 and is hidden, the empty bag is saved, and the total keeps its old value |
| Store.SaveThenLoad | store.js:349-360 | saving then loading restores the same bag, with total and badge in agreement |
| Phone.IPhonePage.constructor | phone.js:29-44 | when both `#bag-icon` and `#bag-count` are on the page, the badge starts at the number of lines saved under `shoppingCart`; when either is missing, it keeps the number the markup gave it |
| Phone.IPhonePage.UpdateCartCount | phone.js:46-52 | with a `#bag-count` element the badge shows the number of saved lines, or 0 with nothing saved; without one nothing changes |
| Phone.IPhonePage.AddToCart | phone.js:197-214 | storage under `shoppingCart` becomes `Merge` of the saved bag (empty when missing); with a `#bag-count` element the badge shows the new line count, growing by 1 for a new id and staying for a known one; without one the badge is untouched |
| Links.NavLinkList.Click | phone.js:19-26 | after a click exactly the clicked link is active, and the list keeps its length |
| MainNav.RewriteStoreHref | main-nav.js:70-75 | an href mentioning "store" but not "store.html" becomes exactly "store.html"; an href already mentioning "store.html", or not mentioning "store", is kept; either way the result mentions "store.html" whenever the href mentions "store" |
| MainNav.RewriteStoreLinks | main-nav.js:70-75 | every href is rewritten on its own, in order |
| MainNav.RewriteStoreLinksIdempotent | main-nav.js:70-75 | rewriting the links a second time changes nothing |
| MainNav.MainNavigation.constructor | main-nav.js:48-64 | when both `#bag-icon` and `#bag-count` are on the page, the badge shows the number of lines saved under `shoppingCart`; when either is missing, it keeps the number the markup gave it |
| MainNav.MainNavigation.SetupShoppingBag | main-nav.js:48-64 | when both `#bag-icon` and `#bag-count` are on the page, the badge shows the number of saved lines, or 0 with nothing saved; when either is missing, nothing changes |
| MainNav.MainNavigation.UpdateStoreLinkInNavigation | main-nav.js:68-76 | the loop leaves every href rewritten by `RewriteStoreHref` |
| Tabs.IndexOf | apple-nav.js:92 | `indexOf`: -1 exactly for a name not in the list, otherwise the first position holding it |
| Tabs.IndexFromSearches | apple-nav.js:92 | the scan from a position with no earlier match finds the first match or -1 |
| Tabs.KeyTarget | apple-nav.js:90-114 | only ArrowLeft, ArrowRight, Home and End select a tab |
| Tabs.TabNamesDistinct | apple-nav.js:91 | the five tab names are distinct |
| Tabs.IndexOfListed | apple-nav.js:91-92 | each listed name is found at its own position |
| Tabs.ArrowRightNext | apple-nav.js:100-104 | ArrowRight moves to the next name, wrapping from the last to the first |
| Tabs.ArrowLeftPrevious | apple-nav.js:95-99 | ArrowLeft moves to the previous name, wrapping from the first to the last |
| Tabs.UnlistedCurrent | apple-nav.js:92-104 | from a tab outside the list (index -1), ArrowLeft reaches "watch" and ArrowRight reaches "store" |
| Tabs.LeftRightInverse | apple-nav.js:95-104 | from a listed tab, ArrowLeft then ArrowRight comes back, and so does the reverse |
| Tabs.HomeAndEnd | apple-nav.js:105-112 | Home selects "store", which is listed; End selects "entertainment", which is not |
| Tabs.ArrowsStayListed | apple-nav.js:95-104 | either arrow always lands on a listed tab |
| Tabs.MarkedOnlyExclusive | apple-nav.js:52-72 | after marking, at most one element is active; it carries the key; and one is active exactly when some element has the key |
| Tabs.MarkOnly | apple-nav.js:54-72 | clearing every element and then setting the first with the key yields `MarkedOnly` |
| Tabs.AppleNavigation.constructor | apple-nav.js:4-15 | starts on "store", with tabs and sections marked for it |
| Tabs.AppleNavigation.SetActiveTab | apple-nav.js:52-78 | the only active tab and section are the first ones carrying the name, and the name becomes current even when none does |
| Tabs.AppleNavigation.HandleKeyboardNavigation | apple-nav.js:90-114 | a selecting key activates its `KeyTarget`; any other key changes nothing |
| Tabs.AppleNavigation.GetCurrentTab | apple-nav.js:153-155 | returns the current tab |
| Text.Contains | update-branding.js:111 | `includes`: the empty pattern is always included, and a pattern longer than the text never is |
| Text.ContainsIff | update-branding.js:111 | `includes` holds exactly when the pattern occurs at some position |
| Text.ReplaceFromLength | update-branding.js:112 | the global replace changes the length by the number of occurrences replaced × the change in length |
| Text.ReplaceFromChanges | update-branding.js:112 | replacing a present pattern with a different string changes the text |
| Text.ReplaceAll | update-branding.js:112 | the global replace keeps the text exactly when the pattern is absent or replaced by itself |
| Text.ReplaceSingle | update-branding.js:112 | with one occurrence, the global replace swaps just that occurrence |
| Text.ReplaceAllFirst | update-branding.js:112 | for any text a + p + b with no earlier occurrence of p, the global replace yields a, the replacement, and the global replace of b alone: occurrences are consumed from left to right, and one overlapping a replaced occurrence is never replaced |
| Text.ReplaceAllLeftToRight | update-branding.js:112 | two examples of `ReplaceAllFirst`: "aaa" with "aa" → "b" gives "ba", and "abab" with "ab" → "ba" gives "baba" |
| Text.LowerLeavesNoCapital | remove-specific-sections.js:90 | no ASCII capital is left after `toLowerCase` |
| Text.LowerKeepsOthers | remove-specific-sections.js:90 | `toLowerCase` keeps every character that is not an ASCII capital and turns each capital into the letter 32 code points above it |
| Text.LowerIdempotent | remove-specific-sections.js:90 | lowercasing a second time changes nothing |
| Text.LowerUnchangedIff | remove-specific-sections.js:90 | `toLowerCase` leaves a string as it is exactly when it holds no ASCII capital |
| Text.MissingCharAbsent | update-branding.js:111 | `includes` is false for a pattern holding a character the text lacks |
| Text.TrimStart | remove-specific-sections.js:90 | strips exactly the leading whitespace |
| Text.TrimEnd | remove-specific-sections.js:90 | strips exactly the trailing whitespace |
| Text.TrimIsSlice | remove-specific-sections.js:90 | `trim` gives the slice between the leading and the trailing whitespace |
| Text.TrimStrips | remove-specific-sections.js:90 | neither end of a trimmed string is whitespace |
| Branding.MappingsValid | update-branding.js:5-50 | every pattern of the table is non-empty |
| Branding.PlainHasNoMeta | update-branding.js:112 | a pattern of letters and spaces holds no regular-expression metacharacter, so `new RegExp(p, 'g')` matches p literally |
| Branding.MappingsAreLiteral | update-branding.js:5-50 | every table entry is letters and spaces on both sides, non-empty, and maps a pattern to something else |
| Branding.ApplyFromAppend | update-branding.js:110-115 | applying a concatenated table is applying its first part, then its second |
| Branding.ApplyThree | update-branding.js:110-115 | a group of three entries is three replacement steps |
| Branding.RebrandPassesThrough | update-branding.js:105-119 | the text pass leaves a text holding none of the table's patterns as it was |
| Branding.RebrandInGroups | update-branding.js:5-50 | the text pass is the eleven spelling groups applied in table order |
| Branding.LowerRules | update-branding.js:130-142 | the data pass pairs each pattern and replacement with its lowercased form |
| Branding.LowerRulesAppend | update-branding.js:130-142 | lowercasing the table distributes over concatenation |
| Branding.DataMappingsAreLowered | update-branding.js:130-142 | lowercasing the table gives the groups in which each group's three spellings collapse into one |
| Branding.RebrandDataPassesThrough | update-branding.js:127-144 | the data pass leaves a value holding none of the lowercased patterns as it was |
| Branding.RebrandDataInGroups | update-branding.js:128-144 | the data pass is the eleven lowercased groups applied in table order |
| Branding.StepUnchangedIff | update-branding.js:111-114 | `Step`, one entry of the inner loop, leaves the text as it was exactly when its pattern is absent or replaced by itself |
| Branding.StepAbsentChar | update-branding.js:111-114 | `Step` with a pattern holding a character the text lacks leaves the text alone |
| Branding.StepFiresOnce | update-branding.js:111-114 | `Step` on a text holding the pattern once, after a prefix that cannot start it, swaps just that occurrence for the replacement |
| Branding.StepFiresLast | update-branding.js:111-114 | the same with the occurrence at the end of the text |
| Branding.SkipAbsent | update-branding.js:110-115 | entries whose patterns do not occur pass over the text and do not mark it updated |
| Branding.NoPatternNoChange | update-branding.js:110-119 | text in which no pattern occurs comes out unchanged and is not marked updated |
| Branding.NotFiredUnchanged | update-branding.js:107-119 | a text no entry fired on comes out unchanged, so skipping the write loses nothing |
| Branding.FiringRuleChanges | update-branding.js:111-113 | when an entry's pattern occurs, that step changes the text |
| Branding.RewriteText | update-branding.js:105-119 | the loop over the table computes the rebranded text and sets `updated` exactly when some entry fired; with `updated` false the text is unchanged |
| Branding.RewriteAttribute | update-branding.js:154-163 | an absent attribute stays absent and a present one is rebranded |
| Branding.RebrandDataElement | update-branding.js:128-144 | product and category are rebranded with the lowercased table, presence is kept, and `data-name` is never touched |
| Branding.RebrandLabels | update-branding.js:152-166 | alt, title and aria-label get the same case-sensitive rebranding as text, and presence is kept |
| Branding.RewriteAttributeValue | update-branding.js:154-163 | the loop agrees with `RewriteAttribute` |
| Branding.RewriteDataElement | update-branding.js:127-145 | the loop agrees with `RebrandDataElement` |
| Branding.RewriteLabels | update-branding.js:152-166 | the loop agrees with `RebrandLabels` |
| Branding.BrandingUpdater.UpdateTextContent | update-branding.js:90-121 | every text node ends up rebranded, in place |
| Branding.BrandingUpdater.UpdateDataAttributes | update-branding.js:123-146 | every data element ends up rebranded by the data pass |
| Branding.BrandingUpdater.UpdateAttributes | update-branding.js:148-167 | every labelled element ends up rebranded by the attribute pass |
| Branding.BrandingUpdater.UpdateBranding | update-branding.js:75-88 | the three passes in turn, each over its own list |
| BrandingExamples.MacbookShadowed | update-branding.js:12-17 | "macbook" becomes "Desktopbook": the `mac` entry fires before `macbook` can |
| BrandingExamples.AppleWatchShadowed | update-branding.js:8-34 | "apple watch" becomes "LemOn watch": the `apple` entry fires before `apple watch` can |
| BrandingExamples.SubstringNotWord | update-branding.js:44-46 | "studios" becomes "studPhoneOS": replacement is by substring, not by word |
| BrandingExamples.NotIdempotent | update-branding.js:49 | the pass is not idempotent: "WATCHOS" becomes "LEMON WATCHOS", which a second pass turns into "LEMON LEMON WATCHOS" |
| BrandingExamples.DataRulesCollide | update-branding.js:47-49 | lowercased, the three watchOS entries make "watchos" into "lemon lemon lemon watchos" in the data pass, while the text pass makes it "LemOn WatchOS" |
| Sections.Keep | remove-specific-sections.js:89-94 | `remove()` spares exactly the elements the test does not select |
| Sections.KeepAppend | remove-specific-sections.js:87-96 | removal keeps the order of what remains: it distributes over concatenation |
| Sections.KeepTwice | remove-specific-sections.js:53-57 | removing by two tests in turn is removing by either |
| Sections.KeepSame | remove-specific-sections.js:144-155 | tests that agree on every element remove the same elements |
| Sections.KeepNone | remove-specific-sections.js:87-96 | a test no element passes removes nothing |
| Sections.ExactIsNavigationHit | remove-specific-sections.js:90-91 | an exact trimmed match is also a match by containment |
| Sections.UnwantedIsNavigationHit | remove-specific-sections.js:211-227 | an element the desired-sections pass would remove was already removed by the navigation pass |
| Sections.ExactPass | remove-specific-sections.js:71-98 | what the exact pass leaves is what it was given, minus every selected element whose trimmed lowercase text equals a keyword; never longer |
| Sections.PartialPass | remove-specific-sections.js:100-127 | what the partial pass leaves is what it was given, minus every selected element whose text contains a keyword and is shorter than 30; never longer |
| Sections.NavigationPass | remove-specific-sections.js:129-156 | what the containment pass leaves is what it was given, minus every selected element whose text contains a keyword; never longer |
| Sections.DesiredPass | remove-specific-sections.js:195-231 | what the desired-sections pass leaves is what it was given, minus every element `Unwanted` selects; never longer |
| Sections.CleanupPass | remove-specific-sections.js:233-242 | what the cleanup leaves is what it was given, minus the empty navigation `li` elements; never longer |
| Sections.PipelineCollapses | remove-specific-sections.js:50-69 | the five passes equal the containment pass followed by the cleanup, so the exact, partial and keep-list passes remove nothing more |
| Sections.NoKeywordSurvives | remove-specific-sections.js:129-156 | no selected element left mentions a removal keyword |
| Sections.RemovalKeywordsLowercase | remove-specific-sections.js:5-14 | the removal keywords are already lowercase |
| Sections.MentionsKeyword | remove-specific-sections.js:148-153 | the inner keyword loop decides removal exactly as some keyword's containment |
| Sections.SectionRemover.constructor | remove-specific-sections.js:4-27 | holds the page's elements and the two built-in keyword lists |
| Sections.SectionRemover.RemoveWhere | remove-specific-sections.js:88-95 | removes exactly the elements the test selects and keeps the rest in order |
| Sections.SectionRemover.RemoveByKeyword | remove-specific-sections.js:73-97 | keyword by keyword, the pass removes every element some keyword hits |
| Sections.SectionRemover.RemoveByExactText | remove-specific-sections.js:71-98 | the exact pass removes the selected elements whose trimmed lowercase text equals a keyword |
| Sections.SectionRemover.RemoveByPartialText | remove-specific-sections.js:100-127 | the partial pass removes the selected elements whose text contains a keyword and is shorter than 30 |
| Sections.SectionRemover.RemoveNavigationItems | remove-specific-sections.js:129-156 | element by element, the pass removes every selected element whose text contains a keyword |
| Sections.SectionRemover.EnsureOnlyDesiredSections | remove-specific-sections.js:195-231 | removes the links with non-empty trimmed text shorter than 20 that mention a removal keyword and no keep keyword |
| Sections.SectionRemover.CleanupEmptyContainers | remove-specific-sections.js:233-242 | removes the navigation `li` elements with no children and blank text |
| Sections.SectionRemover.RemoveSpecificSections | remove-specific-sections.js:50-69 | the five passes leave the containment pass followed by the cleanup |
| Sections.HitRemoved | remove-specific-sections.js:148-152 | an element some keyword hits is removed |
| Sections.KeepListNotConsulted | remove-specific-sections.js:144-155 | "shop accessories" is removed although it mentions the keep keyword "shop" |
| Sections.NoRemovalKeywordIn | remove-specific-sections.js:5-14 | a text shorter than 7 contains no removal keyword |
| Sections.MissSurvives | remove-specific-sections.js:146-154 | a label no keyword hits survives the containment pass |
| Sections.NavigationPassFour | remove-specific-sections.js:146-154 | the containment pass decides each element on its own |
| Sections.CleanupKeepsLinks | remove-specific-sections.js:235-241 | the cleanup leaves alone a list without navigation `li` elements |
| Sections.ShortLabelSurvives | remove-specific-sections.js:146-154 | a label shorter than every removal keyword survives |
| Sections.BuiltInListsExample | remove-specific-sections.js:5-14 | of the links Shop, AirPods, Pad and Home, only AirPods is removed and the rest keep their order |
| Sections.DropChars | remove-specific-sections.js:189 | a global replace by the empty string leaves only characters it does not select, all drawn from the input |
| Sections.DropAppend | remove-specific-sections.js:189 | dropping characters distributes over concatenation |
| Sections.DropNone | remove-specific-sections.js:189 | a string with nothing to drop is kept |
| Sections.Bare | remove-specific-sections.js:189 | the name without whitespace and ampersands |
| Sections.SectionKey | remove-specific-sections.js:189 | the key holds no whitespace and no ampersand |
| Sections.TvHomeEntryUnreachable | remove-specific-sections.js:183-190 | no section name has the key "tv & home", so that pattern entry is never consulted |
| Sections.KeyIgnoresSeparators | remove-specific-sections.js:189 | whitespace and ampersands anywhere in a name do not change its key |
| Sections.SeparatorsVanish | remove-specific-sections.js:189 | a run of whitespace and ampersands leaves nothing behind |
| Sections.DropAllSelected | remove-specific-sections.js:189 | what the first replace keeps, the second drops, when every character is selected by one of them |
| Sections.RelevantPatterns | remove-specific-sections.js:181-190 | never empty; a listed key yields its entry, which starts with the key; any other key yields the section name alone |
| Sections.IsTargetSection | remove-specific-sections.js:176-193 | for a name whose key has no entry, the element is a target exactly when its lowercased text contains the lowercased name |
| Sections.TvHomeKeyUnlisted | remove-specific-sections.js:181-190 | "tv & home" has the key "tvhome", which has no entry either, so its only pattern is the name itself |
| Sections.AirPodsKeyListed | remove-specific-sections.js:181-190 | "air pods" has the key "airpods", so its patterns are that entry's four |

## Left out

- Rendering is not modelled: the item list markup, `toFixed(2)` formatting,
  styles, animations, the search overlay, category filtering, hover effects
  and scrolling.
- Timers are not modelled: `setTimeout` polling for the app root, the
  mutation observer and its debounce, and the intersection observers.
  Every operation runs once, when called.
- The bag prices are integers (cents) rather than floating-point numbers.
  Nothing checks their sign.
- `JSON.parse` failing on a corrupt saved value is not modelled. Storage
  holds bags directly, and a saved bag is read back exactly as written.
- Store.AppleStore.Checkout: the 1.5-second delay is taken as immediate,
  and the notifications, the alert text and `closeCart` are not modelled.
- Store.AppleStore.UpdateCartDisplay: assumes the `#bag-count` element
  exists; only the badge is modelled.
- The global `addToCart` and `closeCart` wrappers of store.js and its
  `StoreInteractions` class are UI glue and are not part of this model.
- phone.js:258 constructs `PhonePage`, a name the file never defines (the
  class is `IPhonePage`), so the page object is never created as written.
  The model describes the class itself.
- Phone.IPhonePage.AddToCart: the success notification is not modelled.
- The bag icon's click handler (phone.js:38-41, main-nav.js:59-62), which
  navigates to store.html, is not modelled. The presence of `#bag-icon` and
  `#bag-count` is given to the constructors as two flags, and the badge's
  number before setup as a parameter.
- `isLikelySection` of remove-specific-sections.js is not modelled: no
  pass calls it.
- The page is modelled as a flat list of elements, each listing the
  selector groups that match it. This leaves out:
  - nesting, where removing a container removes its descendants too;
  - an element matched by two selectors being visited twice;
  - `textContent` being recomputed after removals inside an element.
- Sections.CleanupPass: an element keeps the child count and text it had
  when the page was captured. So the cleanup removes only a navigation `li`
  that was blank from the start. An `li` emptied by the earlier passes (one
  whose only child was a removed link) is not swept, although the source
  removes it (remove-specific-sections.js:235-241).
- Sections.SectionRemover.CleanupEmptyContainers: follows CleanupPass,
  with the same consequence.
- Store.ProductName: an id naming a property inherited from
  `Object.prototype` (such as "constructor" or "toString") is not modelled.
  The source returns that inherited value; the model returns the id.
- Lengths are counted in Unicode scalar values (Dafny characters). JavaScript's
  `.length` counts UTF-16 code units, so the `< 30` test of the partial pass
  (remove-specific-sections.js:120) and the `< 20` test of the desired-sections
  pass (remove-specific-sections.js:214) differ for text outside the Basic
  Multilingual Plane.
- Tabs.AppleNavigation.SetActiveTab looks for the tab among its own tab list
  and for the section among its own content sections. The source's
  `querySelector('[data-tab=…]')` and `getElementById` search the whole
  document, so they can find an element outside `.nav-tab` and
  `.content-section`; the model assumes they do not.
- Sections.IsTargetSection: a section name whose key equals a property
  inherited from `Object.prototype` (such as "constructor") is not
  modelled. The model's look-up only sees the five pattern entries.
- MainNav.RewriteStoreHref works on the href as written. The browser's
  resolution of `link.href` to an absolute URL is not modelled, and
  neither is the `a[href*="store"]` selector reading the attribute where
  the test reads the property.
- Branding.RebrandLabels treats `alt` like `title` and `aria-label`, as an
  optional string. The property-versus-attribute difference for `alt` on
  non-image elements is not modelled.
- Text.Lower lowercases ASCII letters only. Unicode case mapping is not
  modelled; every pattern in the tables is ASCII.
- The navigation setup and smooth scrolling in apple-nav.js, and its
  `AppleInteractions` and `AppleLoader` classes, are not modelled; they are
  event wiring and effects. `navigateToTab` only calls `setActiveTab`.
- Branding.MappingsAreLiteral states a stronger property than `new
  RegExp` needs: every pattern is letters and spaces only, so none holds
  a regular-expression metacharacter.
- Sections.BuiltInListsExample covers the containment pass only, not the
  cleanup that follows it.
