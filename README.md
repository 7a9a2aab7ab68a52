# AddisProducts client state, modelled in Dafny

AddisProducts is a React front end where people list products and submit
projects, and where government users publish proposals. This project models
the client-side logic that sits between the pages and the backend. That
covers:

- the English/Amharic language provider;
- the up/down vote buttons on a product card and on the product page;
- the "Helpful" button and the star rows of reviews;
- the rating form;
- the search, category and sort pipeline of the product listing;
- the home page's featured and trending lists;
- the proposal filter and sort, and the proposal status icons and badges;
- the two multi-step submission forms with their tag lists;
- the project form's load, edit and save;
- the dashboard's project list;
- the sign-up page's checks.

Each React component becomes one module. State that a component keeps in
`useState` and updates from its handlers becomes a `class`: its fields are
the state, and each handler is a `method` with a `modifies` clause. What is
computed from that state during a render is a `function`. Home's
`mockProducts.sort`, which reorders the shared product array in place, is an
in-place sort of an `array`. Everything the backend answers (a failed
query, the inserted row, the sign-up result) and every user decision (a
`confirm` dialog) is a parameter of the handler that waits for it.

The shared building blocks are:

- `Text`: `trim`, `toLowerCase`, `includes`, `split` and `join`;
- `Seqs`: `filter`, `find`, sums, `slice`, a stable sort by a descending key, and an in-place sort.

The properties proved are these:

- Each vote press moves the count by exactly the change in the vote's weight, and a card's count stays within one of its base.
- Every translation key has an entry in both languages, and every entry is non-empty.
- Tag lists stay trimmed, non-empty and free of duplicates.
- A project's tags survive a load followed by a save (join, then split and trim).
- The listing is a permutation of the filtered products, sorted by the chosen key, and an unknown sort choice keeps the filtered order.
- The home page totals do not depend on the order the in-place sort leaves.
- Every known proposal status gets its own badge and icon.
- The submit handlers reach the backend only when their guards allow it.

## Model

| member | source | states |
|---|---|---|
| Language.Dictionary | src/contexts/LanguageContext.tsx:12-135 | the dictionary of either language, its seven sections joined, has no empty entry |
| Language.SameKeys | src/contexts/LanguageContext.tsx:13-134 | the English and Amharic dictionaries define exactly the same keys |
| Language.Translate | src/contexts/LanguageContext.tsx:144-146 | `t(key)` is the entry of a defined key and the key itself for an undefined one, never anything else |
| Language.DefinedKeysTranslate | src/contexts/LanguageContext.tsx:144-146 | for a defined key the `\|\| key` fallback never fires: the result is the dictionary entry |
| Language.Toggled | src/contexts/LanguageContext.tsx:140-142 | toggling always changes the language |
| Language.ToggleTwice | src/contexts/LanguageContext.tsx:140-142 | toggling twice restores the language |
| Language.LanguageProvider.constructor | src/contexts/LanguageContext.tsx:138 | the provider starts in English |
| Language.LanguageProvider.ToggleLanguage | src/contexts/LanguageContext.tsx:140-142 | the new language is the other one |
| Language.LanguageProvider.T | src/contexts/LanguageContext.tsx:144-146 | `t` translates in the current language |
| Language.UseLanguage | src/contexts/LanguageContext.tsx:155-160 | inside a provider the hook yields the context, outside it fails with the hook's message |
| Language.Localized | src/components/Product/ProductCard.tsx:37-38 | the Amharic variant is shown exactly when Amharic is selected and the variant is a non-empty string, otherwise the English text |
| ProductCard.PressButton | src/components/Product/ProductCard.tsx:19-35 | pressing the current direction retracts the vote and pressing any other direction sets it; the count moves by the change in the vote's weight; `onVote` fires exactly when the press is not a retraction |
| ProductCard.CastFromNone | src/components/Product/ProductCard.tsx:28-33 | a first vote sets the direction, moves the count by one and notifies |
| ProductCard.RetractSame | src/components/Product/ProductCard.tsx:22-25 | pressing the same direction again clears the vote, undoes its point and does not notify |
| ProductCard.SwitchOpposite | src/components/Product/ProductCard.tsx:28-32 | switching direction moves the count by two and notifies |
| ProductCard.PressTwiceRestores | src/components/Product/ProductCard.tsx:19-35 | from no vote or from the pressed direction, pressing twice restores the vote and the count |
| ProductCard.PressTwiceAfterSwitch | src/components/Product/ProductCard.tsx:19-35 | after a switch, a second press of the same direction returns to no vote, not to the old vote |
| ProductCard.ReplayConserves | src/components/Product/ProductCard.tsx:16-35 | after any series of presses the count is the base plus the current vote's weight, so it stays within one of the base |
| ProductCard.CardVotes.constructor | src/components/Product/ProductCard.tsx:16-17 | a card starts with no vote and the product's count |
| ProductCard.CardVotes.HandleVote | src/components/Product/ProductCard.tsx:19-35 | nothing happens without a user; otherwise the vote and count follow `PressButton` and `onVote` receives the product id exactly when the press notifies; the count stays the base plus the vote's weight |
| ProductCard.CardTitle | src/components/Product/ProductCard.tsx:37 | the Amharic title exactly when Amharic is selected and the product has a non-empty one, otherwise the English title |
| ProductCard.CardDescription | src/components/Product/ProductCard.tsx:38 | the Amharic description exactly when Amharic is selected and the product has a non-empty one, otherwise the English description |
| ProductDetail.FindProduct | src/pages/ProductDetail.tsx:22-36 | the lookup finds a product with the id from the list, and finds nothing exactly when no product has that id (the not-found page) |
| ProductDetail.ReviewsFor | src/pages/ProductDetail.tsx:23 | exactly the reviews of this product, each as often as in the list, in list order |
| ProductDetail.DetailTitle | src/pages/ProductDetail.tsx:57 | the Amharic title exactly when Amharic is selected and a non-empty one is present, otherwise the English title |
| ProductDetail.DetailDescription | src/pages/ProductDetail.tsx:58 | the Amharic description exactly when Amharic is selected and a non-empty one is present, otherwise the English description |
| ProductDetail.FundingPanelGuard | src/pages/ProductDetail.tsx:247 | a missing or zero goal, a status other than funding, or an undefined amount raised each hide the funding panel; a funding product with a non-zero goal and a defined amount shows it |
| ProductDetail.DetailVotes.constructor | src/pages/ProductDetail.tsx:19-20 | the page starts with no vote and a count of 0 |
| ProductDetail.DetailVotes.SyncVotes | src/pages/ProductDetail.tsx:38-40 | the effect sets the count to the product's votes and keeps the vote |
| ProductDetail.DetailVotes.HandleVote | src/pages/ProductDetail.tsx:42-55 | the same press rule as the card; the offset of the count from the vote's weight is preserved |
| ProductDetail.OpenAndVote | src/pages/ProductDetail.tsx:38-55 | after the sync and any presses, the count is the product's votes plus the current vote's weight |
| FormLists.AddEntry | src/pages/GovernmentSubmit.tsx:130-141 | a blank input or one whose trimmed text is already listed changes nothing; otherwise the trimmed text is appended and the input cleared; the old list is always a prefix |
| FormLists.RemoveAll | src/pages/GovernmentSubmit.tsx:143-149 | removing a value drops every copy of it and keeps every other entry, with its count, in order |
| FormLists.RemoveAbsent | src/pages/GovernmentSubmit.tsx:143-149 | removing a value that is not listed leaves the list as it was |
| FormLists.AddKeepsClean | src/pages/GovernmentSubmit.tsx:130-141 | adding keeps every entry trimmed, non-empty and unique |
| FormLists.FilterKeepsDistinct | src/pages/GovernmentSubmit.tsx:147 | filtering a duplicate-free list leaves it duplicate-free |
| FormLists.RemoveKeepsClean | src/pages/GovernmentSubmit.tsx:143-149 | removing keeps every entry trimmed, non-empty and unique |
| FormLists.AddThenRemove | src/pages/GovernmentSubmit.tsx:130-149 | removing what was just added restores the list |
| FormLists.UpdateKeepsClean | src/pages/GovernmentSubmit.tsx:130-149 | replacing one list by a clean list keeps all of the form's lists clean |
| FormLists.AddKeepsAllClean | src/pages/GovernmentSubmit.tsx:130-141 | adding to any list keeps all of the form's lists clean |
| GovernmentSubmit.GovernmentSubmitForm.constructor | src/pages/GovernmentSubmit.tsx:17-55 | the form starts at step 1 with the initial fields, empty lists and empty inputs |
| GovernmentSubmit.GovernmentSubmitForm.HandleInputChange | src/pages/GovernmentSubmit.tsx:125-128 | the named field takes the value and nothing else changes |
| GovernmentSubmit.GovernmentSubmitForm.SetInput | src/pages/GovernmentSubmit.tsx:49-55 | typing changes one list's input box only |
| GovernmentSubmit.GovernmentSubmitForm.AddToArray | src/pages/GovernmentSubmit.tsx:130-141 | the field's list and input follow `AddEntry`, and the lists stay clean |
| GovernmentSubmit.GovernmentSubmitForm.RemoveFromArray | src/pages/GovernmentSubmit.tsx:143-149 | the field's list follows `RemoveAll`, and the lists stay clean |
| GovernmentSubmit.GovernmentSubmitForm.NextStep | src/pages/GovernmentSubmit.tsx:168-170 | the step rises by one up to 4 and stays there |
| GovernmentSubmit.GovernmentSubmitForm.PrevStep | src/pages/GovernmentSubmit.tsx:172-174 | the step falls by one down to 1 and stays there |
| Submit.DottedTarget | src/pages/Submit.tsx:112-113 | a dotted field name splits into a parent and a child that contain no dot |
| Submit.DottedTargetOfPair | src/pages/Submit.tsx:112-117 | the name `parent.child` addresses exactly that parent and child |
| Submit.SubmitForm.constructor | src/pages/Submit.tsx:17-50 | the form starts at step 1 with the initial fields, empty tag lists and empty inputs |
| Submit.SubmitForm.HandleInputChange | src/pages/Submit.tsx:107-121 | a checkbox sets its flag; a dotted name sets the child field of its record; any other name sets the text field |
| Submit.SubmitForm.SetInput | src/pages/Submit.tsx:48-50 | typing changes one list's input box only |
| Submit.SubmitForm.Add | src/pages/Submit.tsx:123-150 | tags, tech stack and roles are added by the same rule as `AddEntry`, and the lists stay clean |
| Submit.SubmitForm.Remove | src/pages/Submit.tsx:130-154 | removal follows `RemoveAll`, and the lists stay clean |
| Submit.SubmitForm.NextStep | src/pages/Submit.tsx:173-175 | the step rises by one up to 4 and stays there |
| Submit.SubmitForm.PrevStep | src/pages/Submit.tsx:177-179 | the step falls by one down to 1 and stays there |
| Submit.OrNotSet | src/pages/Submit.tsx:710-714 | an empty summary value reads "Not set", any other value is shown as typed |
| Submit.StageLabel | src/pages/Submit.tsx:718 | the label exists exactly when some stage has the value, and then it is that stage's label |
| Submit.InitialStageLabel | src/pages/Submit.tsx:75-82 | the initial stage 'idea' reads "Idea Stage" |
| Submit.TeamSizeLabel | src/pages/Submit.tsx:722 | the team size followed by " member" for "1" and " members" otherwise |
| Submit.TagCountLabel | src/pages/Submit.tsx:726 | the tag count followed by " tag" for 1 and " tags" otherwise |
| Submit.FundingLabel | src/pages/Submit.tsx:730 | "Not enabled" exactly when funding is off, otherwise the goal after "$" with an empty goal as "0" |
| Submit.PluralOnlyWhenNotOne | src/pages/Submit.tsx:722-726 | both labels end in "s" exactly when the number is not one |
| ProjectForm.ParseTags | src/components/Dashboard/ProjectForm.tsx:76-79 | every parsed tag is non-empty, trimmed and comma-free; the tags are the trimmed pieces in order, each non-empty piece kept as often as it occurs and no empty one |
| ProjectForm.ParseKeepsEveryPiece | src/components/Dashboard/ProjectForm.tsx:76-79 | a string is a parsed tag exactly when it is a non-empty trimmed piece |
| ProjectForm.EmptyParsesToNothing | src/components/Dashboard/ProjectForm.tsx:76-79 | an empty tags field saves no tags |
| ProjectForm.SplitJoined | src/components/Dashboard/ProjectForm.tsx:34-79 | splitting tags joined with ", " and trimming the pieces gives the tags back |
| ProjectForm.ParseJoin | src/components/Dashboard/ProjectForm.tsx:34-79 | parsing the joined tags gives the tags back |
| ProjectForm.ParseIsStable | src/components/Dashboard/ProjectForm.tsx:34-79 | saving, reloading and saving again gives the same tags |
| ProjectForm.Defaults | src/components/Dashboard/ProjectForm.tsx:13-24 | a new form has empty text, category 'technology', status 'active' and zero amounts |
| ProjectForm.OrDefault | src/components/Dashboard/ProjectForm.tsx:32-39 | a stored value is used when it is a non-empty string, the default otherwise |
| ProjectForm.FromProject | src/components/Dashboard/ProjectForm.tsx:27-40 | loading copies title and description, joins the tags, and falls back to the defaults for a missing category, status or amount, and to an empty string for a missing image, website or GitHub URL |
| ProjectForm.PayloadOf | src/components/Dashboard/ProjectForm.tsx:81-92 | the saved payload carries every field as edited, with the tags parsed |
| ProjectForm.LoadThenSaveKeepsTags | src/components/Dashboard/ProjectForm.tsx:34-92 | editing a project and saving it without touching the tags saves the same tags, and a project without tags saves none |
| ProjectForm.ProjectFormState.constructor | src/components/Dashboard/ProjectForm.tsx:12-25 | the form starts from the defaults with no error |
| ProjectForm.ProjectFormState.Load | src/components/Dashboard/ProjectForm.tsx:27-56 | a project fills the form from its stored values and no project resets it to the defaults; the error is cleared |
| ProjectForm.ProjectFormState.HandleChange | src/components/Dashboard/ProjectForm.tsx:58-64 | the named field takes the value, the two amounts the parsed number or 0; an unknown name changes nothing |
| ProjectForm.ProjectFormState.HandleSubmit | src/components/Dashboard/ProjectForm.tsx:66-98 | a blank title stops with "Project title is required"; otherwise the payload goes to `onSave` and the error reflects the outcome; loading is off at the end |
| Dashboard.DeleteById | src/pages/Dashboard.tsx:69 | exactly the projects with other ids remain, each as often as before, in order |
| Dashboard.DeleteAbsent | src/pages/Dashboard.tsx:69 | deleting an id no project has changes nothing |
| Dashboard.Merge | src/pages/Dashboard.tsx:87 | the merged project keeps its id and creation time and takes the new data |
| Dashboard.UpdateById | src/pages/Dashboard.tsx:87 | the project with the id is merged and every other project is kept in its place |
| Dashboard.UpdateOnlyTarget | src/pages/Dashboard.tsx:87 | every project with another id is still listed, and an absent id changes nothing |
| Dashboard.Prepend | src/pages/Dashboard.tsx:95 | the inserted project comes first, followed by the old list |
| Dashboard.UpdateKeepsIds | src/pages/Dashboard.tsx:87 | an update keeps the list's ids in order |
| Dashboard.DashboardPage.constructor | src/pages/Dashboard.tsx:27-31 | the page starts with no projects and the form closed |
| Dashboard.DashboardPage.LoadProjects | src/pages/Dashboard.tsx:41-57 | without a user or on a failed query the list stays; otherwise it becomes the rows, or empty when none come back |
| Dashboard.DashboardPage.OpenNew | src/pages/Dashboard.tsx:182-183 | the form opens with nothing to edit |
| Dashboard.DashboardPage.OpenEdit | src/pages/Dashboard.tsx:245-246 | the form opens on the chosen project |
| Dashboard.DashboardPage.CloseForm | src/pages/Dashboard.tsx:278-281 | the form closes and forgets the project |
| Dashboard.DashboardPage.HandleDeleteProject | src/pages/Dashboard.tsx:59-74 | nothing without confirmation; a failed delete alerts and keeps the list; otherwise the project leaves the list |
| Dashboard.DashboardPage.HandleProjectSave | src/pages/Dashboard.tsx:76-104 | nothing without a user; a failed store alerts; otherwise the edited project is merged or the new one prepended, and the form closes |
| Products.SearchStage | src/pages/Products.tsx:17-30 | an empty query keeps everything; otherwise exactly the matching products remain, each as often as in the input, in order |
| Products.EmptyQueryMatchesAll | src/pages/Products.tsx:20-30 | every product matches the empty query, so skipping the filter for it changes nothing |
| Products.CategoryStage | src/pages/Products.tsx:32-37 | 'all' keeps everything; otherwise exactly the products whose lower-cased category contains the key remain, each as often as in the input, in order |
| Products.Listing | src/pages/Products.tsx:39-50 | the listing is a permutation of the filtered products, sorted by descending key |
| Products.ListProducts | src/pages/Products.tsx:17-50 | the page's stage-by-stage reassignment computes the listing |
| Products.CategoryNarrowsSearch | src/pages/Products.tsx:32-37 | the category stage only removes products from the search result |
| Products.SortedByChoice | src/pages/Products.tsx:39-50 | sorting by votes, recent or funding gives non-increasing votes, creation times or funding (missing as 0) |
| Products.UnknownSortKeepsOrder | src/pages/Products.tsx:47-48 | a comparator that answers 0 leaves the filtered order unchanged |
| Products.SearchBox.Query | src/pages/Products.tsx:14 | the query is the `search` parameter, or empty without one |
| Products.SearchBox.constructor | src/pages/Products.tsx:14-15 | the box starts with the current query |
| Products.SearchBox.EditQuery | src/pages/Products.tsx:101 | typing changes the box and not the query |
| Products.SearchBox.HandleLocalSearch | src/pages/Products.tsx:52-59 | the query becomes the trimmed text, and blank text clears it |
| Products.SearchBox.ClearSearch | src/pages/Products.tsx:61-64 | the box and the query are both cleared |
| Seqs.SortDesc | src/pages/Products.tsx:39-50 | the sorted copy is a permutation of its input with non-increasing keys |
| Seqs.SortDescConstantKey | src/pages/Products.tsx:47-48 | the sort is stable: when all keys are equal it returns its input unchanged |
| Seqs.SortInPlace | src/pages/Home.tsx:14-15 | the array is reordered in place into exactly the stable sort `SortDesc` of its old contents: non-increasing votes, a permutation, and equal counts in their old order |
| Seqs.SumOfPermutation | src/pages/Home.tsx:83-92 | a sum does not depend on the order of the elements |
| Text.Split | src/components/Dashboard/ProjectForm.tsx:77 | `split` gives at least one piece and no piece contains the separator |
| Text.TrimIsTrimmed | src/pages/Products.tsx:54-55 | trimmed text has no white space at either end |
| Text.TrimIdempotent | src/pages/Products.tsx:54-55 | trimming twice is trimming once |
| Home.Featured | src/pages/Home.tsx:13 | exactly the featured products, each as often as in the input, in order |
| Home.Trending | src/pages/Home.tsx:14-16 | at most six, the first of the sorted array, and none left out has more votes than the last kept |
| Home.TotalsIgnoreOrder | src/pages/Home.tsx:83-92 | the funding and vote totals are the same before and after the sort |
| Home.Render | src/pages/Home.tsx:13-20 | featured is taken before the sort; the array then holds the stable sort of its old contents by votes; trending is its first six; the shown list is the category stage of trending; the totals equal those of the original array |
| Government.StatusFilter | src/pages/Government.tsx:15-17 | 'all' keeps every proposal; otherwise exactly those with the status, each as often as before, in order |
| Government.SortedProposals | src/pages/Government.tsx:19-28 | the sorted list is a permutation of the filtered one with non-increasing key |
| Government.SortedByChoice | src/pages/Government.tsx:19-28 | sorting by recent or budget gives non-increasing submission times or budgets |
| Government.UnknownSortKeepsOrder | src/pages/Government.tsx:25-26 | any other choice keeps the filtered order |
| Government.CountLine | src/pages/Government.tsx:104 | "Showing n proposal", with "s" unless n is 1 |
| Government.ResultsLine | src/pages/Government.tsx:103-107 | the count line, followed by the translated status unless the filter is 'all' |
| Government.SingularOnlyForOne | src/pages/Government.tsx:104 | the line ends in "s" exactly when the count is not one |
| Government.SubmitLinkShown | src/pages/Government.tsx:42-50 | the submit link is shown exactly to a signed-in user |
| ProposalCard.StatusGlyph | src/components/Government/ProposalCard.tsx:10-23 | an unknown status gets the document glyph |
| ProposalCard.KnownHue | src/components/Government/ProposalCard.tsx:10-37 | a hue is defined exactly for the four known statuses |
| ProposalCard.CardStatusIcon | src/components/Government/ProposalCard.tsx:10-23 | a known status gets its glyph in its hue at shade 500; any other gets the gray document icon |
| ProposalCard.Badge | src/components/Government/ProposalCard.tsx:25-37 | a badge class names its hue in the first position |
| ProposalCard.BadgeInjective | src/components/Government/ProposalCard.tsx:25-37 | different hues give different badge classes |
| ProposalCard.StatusColor | src/components/Government/ProposalCard.tsx:25-37 | a known status gets its hue's badge and any other status the slate badge |
| ProposalCard.StatusesDistinguished | src/components/Government/ProposalCard.tsx:10-37 | two different known statuses get different badges and icons, and none looks like an unknown status |
| ProposalCard.RequirementPreview | src/components/Government/ProposalCard.tsx:78-88 | the first three requirements are shown, plus a "more" count exactly when there are more than three |
| ProposalCard.PreviewAccountsForAll | src/components/Government/ProposalCard.tsx:78-88 | the shown requirements and the "more" count add up to all of them |
| ProposalCard.ProposalTitle | src/components/Government/ProposalCard.tsx:43 | the Amharic title exactly when Amharic is selected and one is present |
| ProposalCard.ProposalDescription | src/components/Government/ProposalCard.tsx:44 | the Amharic description exactly when Amharic is selected and one is present |
| ProposalCard.ReviewNotesShown | src/components/Government/ProposalCard.tsx:110 | review notes appear exactly when they are a non-empty string |
| GovernmentProposalDetail.FindProposal | src/pages/GovernmentProposalDetail.tsx:20-33 | the lookup finds the first proposal with the id, and finds nothing exactly when none has it |
| GovernmentProposalDetail.DetailStatusIcon | src/pages/GovernmentProposalDetail.tsx:35-48 | the same glyphs as the card at shade 400, and slate for an unknown status |
| GovernmentProposalDetail.SameIconAsCard | src/pages/GovernmentProposalDetail.tsx:35-48 | the detail page and the card agree on glyph and hue |
| GovernmentProposalDetail.DetailTitle | src/pages/GovernmentProposalDetail.tsx:65 | the Amharic title exactly when Amharic is selected and a non-empty one is present, otherwise the English title |
| GovernmentProposalDetail.DetailDescription | src/pages/GovernmentProposalDetail.tsx:66 | the Amharic description exactly when Amharic is selected and a non-empty one is present, otherwise the English description |
| GovernmentProposalDetail.KeyObjectives | src/pages/GovernmentProposalDetail.tsx:89 | the first five requirements |
| GovernmentProposalDetail.NumberedRequirements | src/pages/GovernmentProposalDetail.tsx:133-136 | every requirement is listed once, in order |
| GovernmentProposalDetail.NumbersRunOneToN | src/pages/GovernmentProposalDetail.tsx:133-136 | the numbers run from 1 to the count shown in the sidebar |
| GovernmentProposalDetail.ActionsShown | src/pages/GovernmentProposalDetail.tsx:471 | the actions panel is shown exactly to a government user |
| ReviewCard.StarRow | src/components/Product/ReviewCard.tsx:21-32 | five stars, star `i` filled exactly when `i` is below the rating |
| ReviewCard.FilledStars | src/components/Product/ReviewCard.tsx:21-32 | the row shows the rating, held to 0..5, as that many filled stars |
| ReviewCard.FilledThreshold | src/components/Product/ReviewCard.tsx:26 | among the first n stars, exactly the rating (held to 0..n) are filled |
| ReviewCard.FilledArePrefix | src/components/Product/ReviewCard.tsx:26 | the filled stars come before the empty ones |
| ReviewCard.HelpfulButton.constructor | src/components/Product/ReviewCard.tsx:12-13 | the count starts at the review's count, not yet voted |
| ReviewCard.HelpfulButton.HandleHelpful | src/components/Product/ReviewCard.tsx:15-19 | nothing without a user or after a vote; otherwise one more and voted; never above the initial count plus one |
| ReviewCard.ClickSeries | src/components/Product/ReviewCard.tsx:15-19 | after any series of clicks, the count is the review's count plus one exactly when some click was signed in |
| RatingSystem.ReviewForm.constructor | src/components/Product/RatingSystem.tsx:14-18 | the form starts hidden, with no rating, no hover and no comment |
| RatingSystem.ReviewForm.OpenForm | src/components/Product/RatingSystem.tsx:65-72 | 'Write Review' opens the form only for a signed-in user |
| RatingSystem.ReviewForm.ClickStar | src/components/Product/RatingSystem.tsx:44 | a click on star `i` selects rating `i + 1` |
| RatingSystem.ReviewForm.HoverStar | src/components/Product/RatingSystem.tsx:45 | hovering star `i` previews rating `i + 1` |
| RatingSystem.ReviewForm.LeaveStar | src/components/Product/RatingSystem.tsx:46 | leaving a star ends the preview |
| RatingSystem.ReviewForm.EditComment | src/components/Product/RatingSystem.tsx:116 | typing changes the comment only |
| RatingSystem.ReviewForm.DisplayedRating | src/components/Product/RatingSystem.tsx:40 | the hover preview while there is one, the selection otherwise, always 0..5 |
| RatingSystem.ReviewForm.FormStars | src/components/Product/RatingSystem.tsx:35-49 | the form's star row fills exactly the displayed rating |
| RatingSystem.ReviewForm.HandleSubmitReview | src/components/Product/RatingSystem.tsx:20-33 | nothing without a user or a rating; otherwise the rating (1..5) and comment are submitted and the form is hidden and cleared, the hover preview kept |
| RatingSystem.ReviewForm.Cancel | src/components/Product/RatingSystem.tsx:134-139 | cancel hides the form and clears the rating and comment |
| RatingSystem.ClickThenSubmit | src/components/Product/RatingSystem.tsx:20-46 | a signed-in reviewer who clicks star `i` and types a comment submits exactly rating `i + 1` with that comment |
| Register.RegisterScreen | src/pages/Register.tsx:19-21 | a signed-in user is redirected home, everyone else sees the form |
| Register.PasswordCheck | src/pages/Register.tsx:27-35 | a submission passes exactly when the passwords match and have at least six characters; a mismatch is reported before the length |
| Register.ErrorText | src/pages/Register.tsx:66-67 | a failure's message, or the fallback text when it is empty |
| Register.RegisterPage.constructor | src/pages/Register.tsx:16-17 | no error and not registering |
| Register.RegisterPage.HandleSubmit | src/pages/Register.tsx:23-72 | sign-up is attempted exactly when the password check passes; a rejected step shows its error; the page goes to '/login' exactly when the profile is created; registering ends false |

## Left out

- Amounts are whole numbers. `parseFloat` is not modelled: `HandleChange` takes its result as an `Option<int>` parameter, where `None` stands for `NaN`. Fractional funding amounts are therefore not modelled: the home page's funding total is a sum over whole numbers. The progress bar percentages (src/pages/ProductDetail.tsx:258-263, src/components/Product/ProductCard.tsx:161) are not modelled.
- Backend calls (Supabase sign-up, inserts, updates, deletes, queries) are inputs: the outcome each handler waits for is a parameter. Loading flags that live only across an `await` are set and cleared within one method.
- Navigation (`navigate`, `<Navigate>`), `alert`, `confirm`, `setTimeout` and `Math.random` are left out. Where the flow depends on them they appear as a parameter or a returned flag (`toLogin`, `alerted`, `confirmed`).
- The multi-step forms' `handleSubmit` (a timer followed by a navigation) and the redirect of a signed-out user are not modelled.
- The Pledge and Collaborate modals and the funding budget split of the government form are outside this model. Their state is kept but never used by the pages modelled here.
- Drag-and-drop image upload is left out. So is the gallery. The government form renders no controls for its `supportDocuments` and `constraints` lists. The model still lets the generic add and remove handlers act on them, as the handlers themselves allow.
- Rendering is left out. ProductCard's half-star `renderStars` is rendering only: its result feeds no state.
- `Text.ToLower` folds only ASCII letters, and `Text.Trim` removes only space, tab, newline, carriage return, vertical tab, form feed, no-break space and the byte-order mark. JavaScript's `toLowerCase` and `trim` cover all of Unicode.
- Register.PasswordCheck: the length counts characters, where JavaScript counts UTF-16 code units.
- ProductCard.PressTwiceRestores: proved only from no vote or from the pressed direction. After a switch, a second press clears the vote instead (`PressTwiceAfterSwitch`).
- Votes are not persisted. The card and the product page each keep their own local count, as the source does.
- ProductDetail.DetailVotes: the page calls `useEffect` after the not-found early return, which breaks React's rule that hooks run in the same order on every render. The model treats the page as always rendered with a found product.
- Submit.DottedTarget: only the first two pieces of a dotted name are used, as the source does. A parent field that is not a record is not modelled.
- ProjectForm.ProjectFormState.HandleChange: an unknown input name adds a key in the source. The model keeps the form unchanged instead.
- Dashboard.DashboardPage.HandleProjectSave: an insert that returns no row prepends nothing, where the source would read `data[0]` of an empty array.
- Dashboard.DashboardPage.LoadProjects: the newest-first order is the query's ordering. The rows are taken as given.
- Seqs.SortDesc: stability holds by construction, because `Insert` places an element after every element with an equal key. As a separate lemma it is proved only for a constant key (`SortDescConstantKey`), the case an unknown sort choice produces.
- Ids are integers. The source uses strings, but only their equality is used.
- Products.SortedByChoice and Government.SortedByChoice: creation and submission times are integers. The source sorts by `new Date(x).getTime()`, which is NaN for a string it cannot parse, and the comparator then treats such a pair as equal. Unparseable dates are not modelled.
- RatingSystem.ReviewForm.HandleSubmitReview: the comment box is `required`, so the browser does not submit an empty comment. That browser check is not modelled: the handler and `ClickThenSubmit` accept an empty comment.
- Home.Trending requires its input sorted by votes. That is the state `Render` produces.
- RatingSystem.ReviewForm: the product's average rating is a float in the source. The model uses an integer, and the average's display is not modelled.
- Government.ResultsLine uses `Translate` for the status label. That the status keys have entries in both dictionaries is not proved separately.

