# Agency portfolio site: a verified model of its interactive core

This project models, in Dafny, the logic of a single-page agency website written in React and TypeScript. It covers:

- **Portfolio data and queries** (`src/data/portfolioData.ts`). These are the project records, the service categories, and the filters by featured flag, primary service and secondary category. They include `getMixedProjects`, which builds the default view: every featured project first, then non-featured ones up to a cap of twelve.
- **Portfolio page** (`src/components/pages/Portfolio.tsx`). It models:
  - which query the selected service and category run;
  - the service and category toggle buttons and "Clear All";
  - the category list for the selected service;
  - the "Showing N project(s) in …" line;
  - a project card that opens a video popup instead of following its link.
- **FAQ** (`src/components/home/FAQ.tsx`). It models the case-insensitive search over question and answer, the category filter, the clear button and the single expanded entry.
- **Animated navigation bar** (`src/components/ui/anime-navbar.tsx`). It models the active tab after a route change, after a home-page scroll (a backward scan over the sections) and after a click. It also models hover, mount and the mobile breakpoint.
- **Testimonials** (`src/components/home/Testimonials.tsx`). It models the video carousel's previous and next buttons, the doubled card list of the text sliders, the reversed copy used by the second slider, and the pause on hover.
- **Cursor context** (`src/hooks/useCursor.tsx`). It models the shared label and variant, and the enter and leave handlers.
- **Contact form and project form** (`src/components/home/Contact.tsx`, `src/components/ui/ProjectForm.tsx`). It models the asynchronous submit as a state machine, the disabled button and its label, the status messages, the modal's open state and its delayed close.

Each file's shape follows its source:

- The TypeScript helpers that are expressions become functions.
- Loops become methods with invariants, proved against those functions. These are `getMixedProjects`, the navbar's backward scan and the in-place `Array.prototype.reverse`.
- Components whose state React updates become classes, with one method per handler.
- JavaScript built-ins the core relies on are in `js_array.dfy` and `js_string.dfy`. These are `filter`, `find`, `findIndex`, `toLowerCase`, `includes`, `startsWith`, `indexOf` and `replace`.

Where the code and its written description disagree, the model follows the code:

- The sample data has **three** featured projects (ids 1, 7 and 15), not four.
- The default view holds `max(F, min(12, N))` projects, not `min(12, N)`: when more than twelve projects are featured, none is dropped.

When the project modal is closed while its send is in flight, and is still closed when the send resolves, the modal reports an error, not a success. The modal's component stays on screen, but its `<form>` is unmounted, so `formRef.current.reset()` throws inside the `try` block and the `catch` overwrites the status with "error". The model keeps this behaviour as written (`FormSubmission.SentAfterUnmountReportsError`). If the modal is reopened before the send resolves, `formRef.current` is the new form, the reset succeeds, and the send counts as a success that schedules a close; `ProjectForm.ProjectFormState.Settle` looks at `isOpen` when the send settles, so it does the same. The contact form cannot reach this case, because its `<form>` is rendered unconditionally.

## Model

| member | source | states |
|---|---|---|
| JsString.ToLowerCase | src/components/home/FAQ.tsx:111-112 | lower-casing keeps the length, maps each character by itself, and leaves no upper-case ASCII letter |
| JsString.ToLowerCaseIdempotent | src/components/home/FAQ.tsx:111-112 | lower-casing an already lower-cased string changes nothing |
| JsString.IncludesEmpty | src/components/home/FAQ.tsx:111-112 | the empty query occurs in every string |
| JsString.IncludesBounds | src/components/home/FAQ.tsx:111-112 | a contained string is no longer than its container, and every string contains itself |
| JsString.IncludesTransitive | src/components/home/FAQ.tsx:111-112 | containment is transitive |
| JsString.ToLowerCaseSlice | src/components/home/FAQ.tsx:111-112 | lower-casing commutes with slicing |
| JsString.IncludesToLowerCase | src/components/home/FAQ.tsx:111-112 | an occurrence survives lower-casing both sides |
| JsString.StartsWithIncludes | src/components/ui/anime-navbar.tsx:65 | a string that starts with a prefix contains it |
| JsString.IndexOfFrom | src/components/ui/anime-navbar.tsx:67 | the result is -1 exactly when there is no occurrence at or after `from`; otherwise it is the first occurrence |
| JsString.IndexOfSpec | src/components/ui/anime-navbar.tsx:67 | `indexOf` is non-negative iff `includes` holds, and then it is the first occurrence |
| JsString.ReplaceSpec | src/components/ui/anime-navbar.tsx:67 | replacing a leading pattern with "" drops that prefix; a pattern that does not occur leaves the string unchanged |
| JsArray.Filter | src/data/portfolioData.ts:233-235 | `filter` never lengthens its input |
| JsArray.FilterCount | src/data/portfolioData.ts:233-235 | each value occurs in the result as often as in the input if it passes, and never otherwise |
| JsArray.FilterMembership | src/data/portfolioData.ts:233-235 | a value is in the result iff it is in the input and passes |
| JsArray.FilterIsSubsequence | src/data/portfolioData.ts:233-235 | the result keeps the input order |
| JsArray.FilterUnique | src/data/portfolioData.ts:233-235 | the result is the only ordered subsequence with those counts, so the specification determines `filter` completely |
| JsArray.FilterSpec | src/data/portfolioData.ts:233-235 | order kept, exactly the passing elements, each as often as in the input |
| JsArray.FilterAppend | src/data/portfolioData.ts:48-231 | filtering distributes over concatenation |
| JsArray.FilterFusion | src/data/portfolioData.ts:248-252 | filtering twice is filtering once by the conjunction of the two tests |
| JsArray.FilterPartition | src/data/portfolioData.ts:256-257 | a test and its negation split the input: the multisets and the lengths add up |
| JsArray.FindIndex | src/components/ui/anime-navbar.tsx:45 | `findIndex` is the first index that passes, or -1 exactly when none passes |
| JsArray.Find | src/components/ui/anime-navbar.tsx:45 | `find` is `undefined` iff no element passes; otherwise it is the element at the first index that passes |
| JsArray.FindFirst | src/components/ui/anime-navbar.tsx:45 | `find` and `findIndex` return the element at, and the index of, the first index that passes |
| PortfolioData.FeaturedProjectsSpec | src/data/portfolioData.ts:233-235 | `getFeaturedProjects` returns exactly the featured projects, in list order, each as often as listed |
| PortfolioData.ProjectsByServiceSpec | src/data/portfolioData.ts:238-240 | `getProjectsByService` returns exactly the projects with that primary service, in list order |
| PortfolioData.ProjectsByCategorySpec | src/data/portfolioData.ts:243-245 | `getProjectsByCategory` returns exactly the projects with that secondary category, in list order |
| PortfolioData.ProjectsByServiceAndCategorySpec | src/data/portfolioData.ts:248-252 | the combined query returns exactly the projects passing both tests, in list order |
| PortfolioData.ServiceAndCategoryIsIntersection | src/data/portfolioData.ts:238-252 | a project is in the combined result iff it is in both single-test results |
| PortfolioData.ServiceThenCategory | src/data/portfolioData.ts:238-252 | the combined query equals narrowing the by-service result by category |
| PortfolioData.FeaturedSplit | src/data/portfolioData.ts:256-257 | the featured and non-featured lists split the input: lengths and multisets add up |
| PortfolioData.MixedFill | src/data/portfolioData.ts:261-271 | the number of non-featured projects the default view takes never exceeds how many there are |
| PortfolioData.GetMixedProjects | src/data/portfolioData.ts:255-273 | the two loops build the default view: length `max(F, min(12, N))`, all featured projects first in list order, no project more often than listed |
| PortfolioData.MixedProjectsShape | src/data/portfolioData.ts:255-273 | the default view is the featured projects followed by the leading non-featured ones, its length is `max(F, min(12, N))`, and it is a sub-multiset of the input |
| PortfolioData.MixedProjectsFillsCap | src/data/portfolioData.ts:261-271 | when the featured projects fit under the cap, the view holds exactly `min(12, N)` projects |
| PortfolioSiteData.DressAll | src/data/portfolioData.ts:48-231 | pairing the listings with their contents gives one project per pair |
| PortfolioSiteData.FeaturedListings | src/data/portfolioData.ts:48-231 | in the site's data the featured projects are 1 (web), 7 (marketing) and 15 (design), and no chatbot project is featured |
| PortfolioSiteData.NonFeaturedListingsFirstHalf | src/data/portfolioData.ts:48-143 | the non-featured web and marketing projects are 2-5 and 6, 8, 9 |
| PortfolioSiteData.NonFeaturedListingsSecondHalf | src/data/portfolioData.ts:145-231 | the non-featured chatbot and design projects are 10-13 and 14, 16, 17 |
| PortfolioSiteData.WebDevelopmentCategoriesOffered | src/data/portfolioData.ts:21-100 | every web development project's service is the first service button, and its category is one of that service's category buttons |
| PortfolioSiteData.MarketingCategoriesOffered | src/data/portfolioData.ts:21-143 | every marketing project's service and category have buttons (the second service) |
| PortfolioSiteData.ChatbotCategoriesOffered | src/data/portfolioData.ts:21-188 | every chatbot project's service and category have buttons (the third service) |
| PortfolioSiteData.DesignCategoriesOffered | src/data/portfolioData.ts:21-231 | every design project's service and category have buttons (the fourth service) |
| PortfolioSiteData.EcommerceWebListings | src/data/portfolioData.ts:71-80 | project 3 is the only web development project in the E-commerce category |
| PortfolioSiteData.MixedOfSeventeen | src/data/portfolioData.ts:255-273 | for seventeen projects with the site's featured and non-featured ids, the default view is 1, 7, 15 followed by 2-6 and 8-11 |
| PortfolioSiteData.FeaturedOnSiteData | src/data/portfolioData.ts:233-235 | on the site's data `getFeaturedProjects` yields ids 1, 7 and 15 in that order |
| PortfolioSiteData.NonFeaturedOnSiteData | src/data/portfolioData.ts:256-257 | on the site's data the non-featured projects are the other fourteen, in list order |
| PortfolioSiteData.MixedProjectsOnSiteData | src/data/portfolioData.ts:255-273 | the site's default view is twelve projects, 1, 7, 15, 2, 3, 4, 5, 6, 8, 9, 10, 11, so projects 12, 13, 14, 16 and 17 are hidden |
| PortfolioSiteData.WebDevelopmentEcommerceOnSiteData | src/data/portfolioData.ts:248-252 | on the site's data, web development with E-commerce shows only project 3 |
| PortfolioPage.ShownProjectsUnderInvariant | src/components/pages/Portfolio.tsx:248-266 | while a category is only ever set together with a service, the page shows the default view, the combined query or the by-service query |
| PortfolioPage.ShownProjectsFromList | src/components/pages/Portfolio.tsx:248-266 | whatever is selected, the shown projects come from the list, none more often than listed |
| PortfolioPage.ShownProjectsForService | src/components/pages/Portfolio.tsx:253-259 | with a service selected, the shown list keeps list order and holds a project iff it matches the service (and the category, when one is selected) |
| PortfolioPage.Toggle | src/components/pages/Portfolio.tsx:203 | a filter button passes `null` exactly when its value is already selected, and its own value otherwise |
| PortfolioPage.ToggleTwice | src/components/pages/Portfolio.tsx:203 | two clicks on the same button restore a selection that was empty or that button's |
| PortfolioPage.AvailableCategoriesSpec | src/components/pages/Portfolio.tsx:173-175 | no categories without a service or for an unknown service; otherwise the subcategories of the first category with that id |
| PortfolioPage.ProjectNoun | src/components/pages/Portfolio.tsx:322 | the label says "project" iff the count is 1, and "projects" otherwise |
| PortfolioPage.ResultsServiceName | src/components/pages/Portfolio.tsx:323-325 | a service name is shown only for a selected, known service id, and it is that service's name; every known id gets one |
| PortfolioPage.ResultsServiceNameSpec | src/components/pages/Portfolio.tsx:323-325 | with no selection, or an id no category has, there is no name; otherwise the name is that of the first category with the selected id |
| PortfolioPage.FilterState.constructor | src/components/pages/Portfolio.tsx:245-246 | the page starts with no service and no category selected |
| PortfolioPage.FilterState.HandleServiceChange | src/components/pages/Portfolio.tsx:273-276 | a new service replaces the old one and clears the category |
| PortfolioPage.FilterState.HandleClearFilters | src/components/pages/Portfolio.tsx:268-271 | both selections are cleared, and the "Clear All" button disappears |
| PortfolioPage.FilterState.ServiceButtonClick | src/components/pages/Portfolio.tsx:203 | a service button toggles its service and clears the category |
| PortfolioPage.FilterState.CategoryButtonClick | src/components/pages/Portfolio.tsx:219-226 | a category button, offered only for the selected service, toggles its category and keeps the service |
| PortfolioPage.FilterState.FilteredProjects | src/components/pages/Portfolio.tsx:248-266 | the memo returns the list the selection dispatches to; under the class invariant that is the default view, the combined query or the by-service query, never the category-only branch or the fallback |
| PortfolioPage.ProjectCard.constructor | src/components/pages/Portfolio.tsx:74 | a card starts with its popup closed and empty |
| PortfolioPage.ProjectCard.HandleCardClick | src/components/pages/Portfolio.tsx:79-84 | a card with a video opens the popup on that video and does not follow the link; a card without one follows the link and leaves the popup alone |
| PortfolioPage.ProjectCard.Close | src/components/pages/Portfolio.tsx:149 | closing empties and hides the popup |
| Faq.FilteredFaqsSpec | src/components/home/FAQ.tsx:110-115 | the shown entries keep list order and are exactly those whose lower-cased question or answer contains the lower-cased query, in the selected category or with "all" |
| Faq.EmptyQueryShowsAll | src/components/home/FAQ.tsx:103-104 | with the initial empty query and "all", every entry is shown |
| Faq.SearchIgnoresCase | src/components/home/FAQ.tsx:111-112 | two queries that agree after lower-casing show the same entries |
| Faq.CategoryNarrowsAll | src/components/home/FAQ.tsx:113 | choosing a category narrows the "all" result to that category, in order |
| Faq.LongerQueryNarrows | src/components/home/FAQ.tsx:110-115 | extending a query can only remove entries: the result is the shorter query's result filtered again, and a subsequence of it |
| Faq.AtMostOneExpanded | src/components/home/FAQ.tsx:105-208 | since `expandedId` holds one id, with distinct ids at most one entry is expanded |
| Faq.ToggleExpanded | src/components/home/FAQ.tsx:220 | a click collapses the expanded entry, and otherwise expands the clicked one |
| Faq.FaqState.constructor | src/components/home/FAQ.tsx:103-105 | the section starts with an empty query, the "all" category and nothing expanded |
| Faq.FaqState.HandleSearch | src/components/home/FAQ.tsx:117-120 | typing replaces the query and collapses the expanded entry, keeping the category |
| Faq.FaqState.ClearSearch | src/components/home/FAQ.tsx:122-125 | clearing empties the query, keeps the category and the expanded entry, and hides the clear button |
| Faq.FaqState.SelectCategory | src/components/home/FAQ.tsx:185 | a category button selects its category and changes nothing else |
| Faq.FaqState.ToggleItem | src/components/home/FAQ.tsx:208-220 | a click on an entry toggles it and changes nothing else |
| AnimeNavbar.GetElementById | src/components/ui/anime-navbar.tsx:69 | an element is found iff the id is non-empty and on the page, and then it is that element |
| AnimeNavbar.SectionsSpec | src/components/ui/anime-navbar.tsx:64-70 | the sections are exactly the "/#" tabs, with the prefix dropped from the id and the tab's name kept |
| AnimeNavbar.LastHit | src/components/ui/anime-navbar.tsx:74-85 | the result is the last section among the first `n` that the scroll position hits, or -1 when none is hit |
| AnimeNavbar.ScrollActiveSpec | src/components/ui/anime-navbar.tsx:63-86 | a scroll activates the last section hit; when none is hit, the active tab stays |
| AnimeNavbar.ActiveAfterRouteSpec | src/components/ui/anime-navbar.tsx:39-92 | a tab matching the path wins; off the home page nothing else changes the tab; on the home page a tab matching the hash wins; otherwise the scroll decides, and only then does a listener stay installed |
| AnimeNavbar.NavBar.constructor | src/components/ui/anime-navbar.tsx:18-22 | the bar starts unmounted, with nothing hovered, not in mobile mode, and `defaultActive` active, which is "Home" when omitted |
| AnimeNavbar.NavBar.Mount | src/components/ui/anime-navbar.tsx:25-27 | mounting makes the bar render and changes nothing else |
| AnimeNavbar.NavBar.HandleResize | src/components/ui/anime-navbar.tsx:29-37 | mobile mode holds exactly below a window width of 640 |
| AnimeNavbar.NavBar.HandleScroll | src/components/ui/anime-navbar.tsx:63-86 | the backward loop leaves the active tab as the scroll specification says |
| AnimeNavbar.NavBar.RouteEffect | src/components/ui/anime-navbar.tsx:39-92 | the route effect leaves the active tab and the scroll listener as the route specification says |
| AnimeNavbar.NavBar.ScrollEvent | src/components/ui/anime-navbar.tsx:88-90 | a scroll moves the active tab only while the listener is installed |
| AnimeNavbar.NavBar.HandleNavClick | src/components/ui/anime-navbar.tsx:94-105 | a click activates the tab; the page scrolls iff the tab is a "/#" link, the path is "/" and the section exists, and then it scrolls to that section |
| AnimeNavbar.NavBar.HoverEnter | src/components/ui/anime-navbar.tsx:132 | entering a tab makes it the hovered one |
| AnimeNavbar.NavBar.HoverLeave | src/components/ui/anime-navbar.tsx:133 | leaving a tab leaves no tab hovered |
| AnimeNavbar.SiteResourcesRoute | src/components/layout/Navbar.tsx:9-45 | on /resources, "Resources" is active and no scroll listener is installed |
| AnimeNavbar.SiteHashRoute | src/components/layout/Navbar.tsx:9-45 | on /#work, "Our Work" is active, whatever the scroll position |
| AnimeNavbar.SiteOtherRoute | src/components/layout/Navbar.tsx:9-45 | on a page that is neither a tab nor the home page, the active tab stays |
| Testimonials.NextIndex | src/components/home/Testimonials.tsx:244 | "next" stays in range, moves forward by one, and wraps from the last video to the first |
| Testimonials.PrevIndex | src/components/home/Testimonials.tsx:236 | "previous" stays in range, moves back by one, and wraps from the first video to the last |
| Testimonials.PrevNextInverse | src/components/home/Testimonials.tsx:236-244 | on a valid index the two buttons undo each other |
| Testimonials.AdvanceInRange | src/components/home/Testimonials.tsx:244 | any number of "next" clicks keeps a valid index |
| Testimonials.AdvanceFullCircle | src/components/home/Testimonials.tsx:244 | as many "next" clicks as there are videos return to the start |
| Testimonials.Carousel.constructor | src/components/home/Testimonials.tsx:196 | the carousel starts on the first video |
| Testimonials.Carousel.Current | src/components/home/Testimonials.tsx:228 | the shown video is one of the list |
| Testimonials.Carousel.PrevClick | src/components/home/Testimonials.tsx:236 | "previous" moves the index as `PrevIndex` says and keeps it valid |
| Testimonials.Carousel.NextClick | src/components/home/Testimonials.tsx:244 | "next" moves the index as `NextIndex` says and keeps it valid |
| Testimonials.SliderCardsRepeat | src/components/home/Testimonials.tsx:164-189 | the slider renders every testimonial twice: card `i` and card `i + n` are the same, and the multiset is doubled |
| Testimonials.SliderKeysDistinct | src/components/home/Testimonials.tsx:165-189 | with distinct ids, the doubled list's React keys are distinct |
| Testimonials.Reversed | src/components/home/Testimonials.tsx:254 | reversing keeps the length |
| Testimonials.ReversedSpec | src/components/home/Testimonials.tsx:254 | reversing twice is the identity, keeps every element, and swaps the first and last |
| Testimonials.Reverse | src/components/home/Testimonials.tsx:254 | the in-place swap loop leaves the array reversed |
| Testimonials.Spread | src/components/home/Testimonials.tsx:254 | spreading gives a fresh array with the same elements |
| Testimonials.ReversedCopy | src/components/home/Testimonials.tsx:253-254 | the second slider gets a fresh reversed copy, and the original list is unchanged |
| Testimonials.Slider.constructor | src/components/home/Testimonials.tsx:102 | a slider starts unpaused |
| Testimonials.Slider.MouseEnter | src/components/home/Testimonials.tsx:157 | hovering pauses the slider |
| Testimonials.Slider.MouseLeave | src/components/home/Testimonials.tsx:158 | leaving resumes the slider |
| Testimonials.SiteCarouselAlternates | src/components/home/Testimonials.tsx:6-17 | with the site's two videos, each button switches to the other video |
| Cursor.UseCursorHandlers | src/hooks/useCursor.tsx:37-40 | the handlers capture the variant and the label, which defaults to "" |
| Cursor.Step | src/hooks/useCursor.tsx:43-52 | entering writes the captured label and variant; leaving restores "" and "default", whatever the state was |
| Cursor.RunLastWriterWins | src/hooks/useCursor.tsx:43-52 | after any run of events, the state is what the last event wrote |
| Cursor.EnterLeave | src/hooks/useCursor.tsx:43-52 | enter then leave returns to the initial state, and a second leave changes nothing |
| Cursor.CursorProvider.constructor | src/hooks/useCursor.tsx:18-19 | the provider starts with label "" and variant "default" |
| Cursor.CursorProvider.OnMouseEnter | src/hooks/useCursor.tsx:44-47 | the provider's state steps by an enter event |
| Cursor.CursorProvider.OnMouseLeave | src/hooks/useCursor.tsx:48-51 | the provider's state steps by a leave event |
| FormSubmission.ResetFields | src/components/home/Contact.tsx:96 | `reset()` sets each control to its default value and keeps its name and `required` flag |
| FormSubmission.ResetFieldsIdempotent | src/components/home/Contact.tsx:96 | resetting twice is resetting once |
| FormSubmission.ResetBlocksResubmission | src/components/home/Contact.tsx:96 | after a reset, a required control with an empty default blocks the next submission |
| FormSubmission.EditField | src/components/home/Contact.tsx:196-245 | typing into one control changes its value and keeps its name, default and `required` flag; every other control is unchanged |
| FormSubmission.SettledStatus | src/components/ui/ProjectForm.tsx:23-39 | the status is success iff the send resolved with the form element still mounted, and error otherwise |
| FormSubmission.SettledShowsMessage | src/components/home/Contact.tsx:87-102 | a settled send never leaves the status idle |
| FormSubmission.SentAfterUnmountReportsError | src/components/ui/ProjectForm.tsx:32-39 | a send that resolves after the form element is gone is reported as an error |
| Contact.ContactForm.constructor | src/components/home/Contact.tsx:76-78 | the form starts idle and enabled, with the contact form's four controls at their defaults |
| Contact.ContactForm.ButtonText | src/components/home/Contact.tsx:257-262 | the button reads "Sending..." exactly while submitting |
| Contact.ContactForm.StatusMessage | src/components/home/Contact.tsx:267-277 | no message while idle, the success line iff success, the error line iff error |
| Contact.ContactForm.Edit | src/components/home/Contact.tsx:196-245 | typing changes one control and nothing else, and the controls stay the contact form's |
| Contact.ContactForm.HandleSubmit | src/components/home/Contact.tsx:80-86 | the button is disabled, the status is cleared and one send starts |
| Contact.ContactForm.PressSubmit | src/components/home/Contact.tsx:198-251 | a press starts a send only when the button is enabled and every required control is filled, so at most one send is ever awaited |
| Contact.ContactForm.Settle | src/components/home/Contact.tsx:87-102 | the status is success iff the send resolved, the form is reset iff it resolved, the button is enabled again, a message is shown, and after a success the required controls are empty again |
| Contact.ContactResetBlocksResubmission | src/components/home/Contact.tsx:196-245 | after a successful send the contact form cannot be sent again until it is refilled |
| ProjectForm.ProjectFormState.constructor | src/components/ui/ProjectForm.tsx:12-14 | the modal starts closed and idle, with the project form's seven controls at their defaults |
| ProjectForm.ProjectFormState.ButtonText | src/components/ui/ProjectForm.tsx:171-176 | the button reads "Sending..." exactly while submitting |
| ProjectForm.ProjectFormState.StatusMessage | src/components/ui/ProjectForm.tsx:181-191 | no message while closed or idle; the success or error line iff open with that status |
| ProjectForm.ProjectFormState.Open | src/components/ui/ProjectForm.tsx:46-47 | opening a closed modal mounts a fresh form with every control at its default, so its required controls are empty; the submitting flag and status are kept |
| ProjectForm.ProjectFormState.OnClose | src/components/ui/ProjectForm.tsx:46-69 | the backdrop and the close button hide the modal and discard what was typed, leaving the required controls empty; the submitting flag and status are kept |
| ProjectForm.ProjectFormState.Edit | src/components/ui/ProjectForm.tsx:80-163 | typing, possible only while open, changes one control and nothing else, and the controls stay the project form's |
| ProjectForm.ProjectFormState.HandleSubmit | src/components/ui/ProjectForm.tsx:16-21 | with the modal closed nothing happens; otherwise the button is disabled, the status is cleared and one send starts |
| ProjectForm.ProjectFormState.PressSubmit | src/components/ui/ProjectForm.tsx:76-168 | a press starts a send only when the button is enabled and every required control is filled |
| ProjectForm.ProjectFormState.Settle | src/components/ui/ProjectForm.tsx:23-42 | the settled status is `SettledStatus` for whether the modal is open when the send settles; only a success resets the form, leaving its required controls empty, and schedules one close |
| ProjectForm.ProjectFormState.TimerFires | src/components/ui/ProjectForm.tsx:34-36 | the two-second timer closes the modal and discards what was typed, even if it was reopened meanwhile, leaving the required controls empty |
| ProjectForm.ProjectResetBlocksResubmission | src/components/ui/ProjectForm.tsx:33-47 | after a success, a close, or a close and a reopen, the modal cannot be sent until its required controls are filled again |
| ProjectForm.ProjectFieldsStartEmpty | src/components/ui/ProjectForm.tsx:80-163 | the modal's controls start at their defaults, and it cannot be sent until the required ones are filled |

## Left out

- The e-mail send (`emailjs.sendForm`) is a network call. The model sees only whether its promise resolved or rejected (`SendOutcome`). The service, template and key strings, and the console logging, are not modelled.
- The asynchronous `handleSubmit` is split at its `await` into `HandleSubmit` and `Settle`. React's batching of state updates is not modelled.
- The `setTimeout` in the project form is a count of due closes (`pendingCloses`). Wall-clock time is not modelled.
- The DOM, the window size and the scroll position are parameters. The navbar's scroll probe `scrollY + innerHeight / 3` is compared after multiplying both sides by 3, with integer pixels. Floating-point pixel values are not modelled.
- `scrollIntoView` is reported as the id to scroll to (`scrollTarget`). The smooth scrolling itself is not modelled.
- Contact.ContactForm.HandleSubmit: the early return when `formRef.current` is null is not modelled, because the contact `<form>` is rendered unconditionally and the handler only runs while it is on screen. Unmounting the whole contact section while a send is in flight is not modelled either: React discards the state updates of an unmounted component.
- JsString.ToLowerCase: lower-cases ASCII letters only, because Unicode case mapping is not modelled.
- The browser's own validation of the `email` control's format is not modelled. Only the `required` check that blocks submission is.
- The cursor context's default value, which has no provider and no-op setters, is not modelled, because the whole application is wrapped in `CursorProvider`. The custom cursor's rendering and motion are not modelled either.
- Animations, framer-motion, the 3D tilt maths, the slider's measured height and its Web Animations keyframes, icons and CSS classes are presentational and are not modelled. Only `isPaused`, which drives the animation, is.
- `ProjectForm.ProjectFormState.Settle`: `<AnimatePresence>` (src/components/ui/ProjectForm.tsx:46-47) keeps the closing modal, and its `<form>`, mounted while its exit animation runs, so a send that resolves in that window still resets the form and reports success. The model treats the form as gone as soon as `isOpen` is false, because the length of the animation is a matter of timing that it does not track.
- The FAQ section's question and category lists and the text testimonials are not reproduced as data. Facts over their long literal texts exceed the verifier's resource limit, and every property of the FAQ filter and the sliders is proved for any list. The two video testimonials are kept, for the carousel example.
- The Voiceflow chat widget and the Python script under src/components/pages are not part of this model.
- The facts about the site's project list are proved for any seventeen contents paired with the site's listings (ids, services, categories and featured flags). The per-project texts, images and links are data only. No lemma states the length of the literal content list, because the verifier cannot unfold it within its resource limit.
- The site's tab list from src/components/layout/Navbar.tsx serves only as test data, for three route examples. As written, that file lacks a comma after the "Our Clients" entry. The model uses the evidently intended list of six tabs.
- No lemma states the site's section list or a concrete scroll example over the site's tabs, because unfolding the literal tabs through `filter`, `startsWith` and `replace` exceeds the verifier's resource limit. The general scroll rules are proved for any tab list (`AnimeNavbar.ScrollActiveSpec`, `AnimeNavbar.NavBar.HandleScroll`).
- Event listener registration is modelled by one flag, `scrollListening`, and the resize listener by calls to `HandleResize`. Listener identity and cleanup order are not modelled.
- Presentational components and pages (hero, services, clients, footer, modals, resources, the application shell and the Tailwind configuration) are not part of this model.
