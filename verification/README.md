# met-art-frontend, modelled in Dafny

This project models the React front end of an art-collection site built on
the Metropolitan Museum's open collection. The modelled parts are:

- the gallery view's state (`App.jsx`): three artwork lists with a shared
  pagination record and "load more", the search dispatch between the MET
  search and the local collection search, favorite toggling, and a map of
  the user's four sub-scores per artwork;
- the session store in localStorage and its authorised-fetch helper
  (`services/auth.js`);
- the session context that holds the logged-in user (`AuthContext.jsx`);
- the star and slider rating widgets;
- the submit handlers of the change-password, reset-password and
  registration forms.

Each stateful component is a `class` whose fields are its React state
cells. Each handler is a `method` whose `modifies` clause names the cells
it sets. Network outcomes are method inputs: a thrown error, or a decoded
response with its `ok` flag. A list fetch takes two steps, split at its
`await`:

- the handler (`FetchArtworks`, `HandleSearch`, `LoadMore`, ...) checks its
  guards, sets the loading flags, and returns the request it would send;
- the completion (`CompleteArtworks`, `CompleteFavorites`, `CompleteRated`)
  takes the response and updates the list, the pagination and the flags.

The pure parts are functions with lemmas:

- the quantisation and glyph rules of the widgets;
- the ordered password checks shared by the three forms;
- the JavaScript string semantics the code relies on, namely `.length`
  counted in UTF-16 code units, `trim`, `includes` and `||` on strings.

Modules: `Common`, `PasswordPolicy`, `AuthService`, `AuthContext`,
`Gallery`, `StarRating`, `SliderRating`, `ChangePasswordForm`,
`ResetPasswordForm`, `RegisterForm`.

## Model

| member | source | states |
|---|---|---|
| Common.OrElse | src/services/auth.js:55 | falling back on a string (`s` or `fallback`) gives the string when it is present and non-empty, and the fallback whenever it is absent or empty |
| Common.Utf16Length | src/components/ChangePassword.jsx:24 | JavaScript's `.length` lies between the character count and twice that count, and it is 0 exactly for the empty string |
| Common.Utf16LengthAppend | src/components/ChangePassword.jsx:24 | `.length` is additive over concatenation |
| Common.Utf16LengthOfBmp | src/components/Register.jsx:34 | for text in the Basic Multilingual Plane, `.length` equals the number of characters |
| Common.TrimStart | src/App.jsx:261 | removes exactly a blank prefix, and leaves a result that does not start with whitespace |
| Common.TrimEnd | src/App.jsx:261 | removes exactly a blank suffix, and leaves a result that does not end with whitespace |
| Common.Trim | src/App.jsx:261 | `trim()`: the result is `s` with a blank prefix and a blank suffix removed, and neither of its ends is whitespace |
| Common.TrimEmptyIffBlank | src/App.jsx:261 | `!query.trim()` holds exactly when the query consists only of whitespace |
| Common.ContainsAt | src/components/ResetPassword.jsx:56 | `includes` finds any occurrence, at any offset |
| Common.Contains | src/components/ResetPassword.jsx:56 | `includes`: the part matches at the start, or occurs later in the text |
| Common.ContainsWitness | src/components/ResetPassword.jsx:56 | conversely, `includes` holds only when the part occurs at some offset, and it yields that offset |
| PasswordPolicy.Check | src/components/ChangePassword.jsx:19-27 | a mismatch is reported first, even for a short password; "too short" means matching passwords below the minimum length; otherwise the passwords are acceptable |
| PasswordPolicy.AcceptedLength | src/components/Register.jsx:34-37 | an accepted password is non-empty under a positive minimum, and for text in the Basic Multilingual Plane it has at least the minimum number of characters |
| ChangePasswordForm.ErrorAfter | src/components/ChangePassword.jsx:40-49 | a thrown error gives "Erreur de connexion"; an ok reply gives no error; a non-ok reply gives the server's message when it is non-empty, and the default otherwise |
| ChangePasswordForm.ChangePassword.constructor | src/components/ChangePassword.jsx:5-13 | every field starts empty or false |
| ChangePasswordForm.ChangePassword.HandleSubmit | src/components/ChangePassword.jsx:15-53 | a failed check sets its own message and sends nothing; otherwise the request carries both passwords, `loading` ends false, `error` follows the reply, and `success` becomes true only on an ok reply |
| ResetPasswordForm.RevokingMessages | src/components/ResetPassword.jsx:56 | any error text containing "expiré" or "invalide" revokes the link |
| ResetPasswordForm.RevokesToken | src/components/ResetPassword.jsx:56 | an error text revokes the link when it includes "expiré" or "invalide" |
| ResetPasswordForm.KeepingMessages | src/components/ResetPassword.jsx:54-58 | an error text in which neither word occurs at any offset does not revoke the link |
| ResetPasswordForm.ResetPassword.constructor | src/components/ResetPassword.jsx:6-15 | the link starts valid, with empty fields |
| ResetPasswordForm.ResetPassword.CheckToken | src/components/ResetPassword.jsx:17-22 | a missing or empty token invalidates the link and shows "Lien de réinitialisation invalide"; a present token changes nothing |
| ResetPasswordForm.ResetPassword.HandleSubmit | src/components/ResetPassword.jsx:24-65 | the same check order with a minimum of 8; a non-ok reply whose error mentions "expiré" or "invalide" invalidates the link and any other reply keeps its validity; `tokenValid` never becomes true again |
| AuthService.Coerce | src/services/auth.js:16-18 | an absent value is stored as the text "undefined" |
| AuthService.ReadUser | src/services/auth.js:34-37 | a missing or empty entry reads as no user; the text "undefined" cannot be parsed; any other entry is the stored profile |
| AuthService.ReadToken | src/services/auth.js:20-22 | `getItem('token')`: null exactly when the key is missing, and otherwise the stored text |
| AuthService.TokenPresent | src/services/auth.js:39-41 | `!!getToken()`: a token is stored and it is not the empty string |
| AuthService.AuthOutcome | src/services/auth.js:53-61 | register and login succeed exactly on an ok reply, returning its body; otherwise they throw the fetch error, or the server's `error`, or the fixed default |
| AuthService.Persisted | src/services/auth.js:58-60 | success stores the token and the user, each coerced to text, and keeps every other key |
| AuthService.PersistedSession | src/services/auth.js:30-41 | a stored profile reads back as itself, and a non-empty stored token makes the store authenticated |
| AuthService.MissingFieldsArePersistedAsUndefined | src/services/auth.js:16-37 | a missing token is stored as "undefined", which counts as authenticated; a missing user is stored as "undefined", which `getUser` cannot parse |
| AuthService.Bearer | src/services/auth.js:115 | the Authorization header is `Bearer <token>` for a non-empty token, and empty otherwise |
| AuthService.MergeHeaders | src/services/auth.js:113-117 | the caller's headers override the two defaults; a default that is not overridden keeps its value |
| AuthService.LocalStorage.constructor | src/services/auth.js:15-41 | the store starts with the given entries |
| AuthService.LocalStorage.GetToken | src/services/auth.js:20-22 | null exactly when no token key is stored, and otherwise the stored text |
| AuthService.LocalStorage.GetUser | src/services/auth.js:34-37 | a missing or empty entry is null; "undefined" cannot be parsed; any other entry is the stored profile |
| AuthService.LocalStorage.IsAuthenticated | src/services/auth.js:39-41 | a token is stored and it is not the empty string |
| AuthService.LocalStorage.SetToken | src/services/auth.js:16-18 | only the token entry changes, and it now reads back as the token |
| AuthService.LocalStorage.SetUser | src/services/auth.js:30-37 | only the user entry changes; a profile reads back as itself, and an absent user reads back as unparsable |
| AuthService.LocalStorage.RemoveToken | src/services/auth.js:24-27 | exactly the `token` and `user` keys are deleted; no other entry changes |
| AuthService.LocalStorage.Logout | src/services/auth.js:86-88 | the store is no longer authenticated and holds no user |
| AuthService.LocalStorage.Authenticate | src/services/auth.js:53-61 | the result is `AuthOutcome`; the store is written only on an ok reply |
| AuthService.LocalStorage.Register | src/services/auth.js:44-62 | `Authenticate` with the register default message |
| AuthService.LocalStorage.Login | src/services/auth.js:65-83 | `Authenticate` with the login default message |
| AuthService.LocalStorage.GetCurrentUser | src/services/auth.js:91-105 | with no token: null, no request and no change; with a token: sends the bearer header, and a non-ok reply clears the session and gives null |
| AuthService.LocalStorage.FetchWithAuth | src/services/auth.js:108-119 | the URL, method and body pass through unchanged; only the headers are replaced, by the merge |
| AuthContext.Accepted | src/contexts/AuthContext.jsx:45-50 | a body is accepted exactly when it has a user and a non-empty token; otherwise "Réponse invalide du serveur" is thrown; a thrown error passes through |
| AuthContext.AcceptedMeansAuthenticated | src/contexts/AuthContext.jsx:42-47 | an accepted outcome always leaves the store authenticated, with the user readable |
| AuthContext.RejectedButAuthenticated | src/contexts/AuthContext.jsx:45-50 | an ok reply with no token is rejected by the context, yet it leaves the store authenticated |
| AuthContext.AuthProvider.constructor | src/contexts/AuthContext.jsx:16-18 | no user, `loading` true, no error |
| AuthContext.AuthProvider.IsAuthenticated | src/contexts/AuthContext.jsx:91 | `!!user`: authenticated exactly when a user is held |
| AuthContext.AuthProvider.CheckUser | src/contexts/AuthContext.jsx:20-35 | the user is adopted only when a profile and a non-empty token are both stored; `loading` ends false, except when `getUser` throws |
| AuthContext.AuthProvider.Complete | src/contexts/AuthContext.jsx:37-56 | `error` is cleared first; on acceptance the user is set; on failure the user is kept and `error` holds the rethrown message |
| AuthContext.AuthProvider.Login | src/contexts/AuthContext.jsx:37-56 | the outcome is the accepted service outcome; on success the context is authenticated; the store changes as the service writes it |
| AuthContext.AuthProvider.Register | src/contexts/AuthContext.jsx:58-77 | as `Login`, with the register default |
| AuthContext.AuthProvider.Logout | src/contexts/AuthContext.jsx:79-91 | the user is null, so `isAuthenticated` is false; the store loses exactly the token and the user |
| RegisterForm.ErrorAfter | src/components/Register.jsx:46-48 | no message on success; otherwise the thrown message, or the default when it is empty |
| RegisterForm.Register.constructor | src/components/Register.jsx:6-11 | empty fields, not loading |
| RegisterForm.Register.HandleSubmit | src/components/Register.jsx:25-52 | a mismatch, then a password under 6, each stops the submit with its message and leaves `loading`, the context and the store unchanged; otherwise `register` is called once, `loading` ends false, `localError` is set from the outcome, and the context's `error` is cleared on success or holds the outcome's message |
| StarRating.Clamp | src/components/Rating.jsx:14 | the result lies in [0, 5], and a value already in range is kept |
| StarRating.HoverStep | src/components/Rating.jsx:10-13 | the unclamped value is a half step inside the hovered star, within [-0.25, 0.25) of the pointer's position, since a fraction of exactly 0.25 or 0.75 takes the lower step |
| StarRating.Quantise | src/components/Rating.jsx:10-14 | a half step in [0, 5], inside the hovered star, and within [-0.25, 0.25) of the pointer's position on the scale |
| StarRating.StarGlyph | src/components/Rating.jsx:24-32 | full when display ≥ index+1; half when index+0.5 ≤ display < index+1; empty otherwise |
| StarRating.StarColor | src/components/Rating.jsx:37-45 | gold exactly when the star's glyph is not empty |
| StarRating.StarSize | src/components/Rating.jsx:48 | 32px for "large", 20px for "small", and 24px for every other size |
| StarRating.DrawnPrefix | src/components/Rating.jsx:22-33 | the glyphs of the first n stars add up to the displayed value, capped at n |
| StarRating.StarsSpellValue | src/components/Rating.jsx:22-33 | the five glyphs show any half-step value in [0, 5] exactly |
| StarRating.Rating.constructor | src/components/Rating.jsx:4-5 | the props are kept and nothing is hovered |
| StarRating.Rating.DisplayValue | src/components/Rating.jsx:23 | the hover value when interactive and set, and otherwise the `value` prop |
| StarRating.Rating.HandleMouseMove | src/components/Rating.jsx:7-15 | when not interactive, nothing changes; otherwise the hover value is the quantised position |
| StarRating.Rating.HandleClick | src/components/Rating.jsx:17-20 | `onChange` is called exactly when the widget is interactive and a hover value is set, and it receives that value |
| StarRating.Rating.HandleMouseLeave | src/components/Rating.jsx:57 | clears the hover value only when interactive |
| StarRating.Rating.GetStarStyle | src/components/Rating.jsx:22-33 | full when the displayed value is at least index+1; half when it is in [index+0.5, index+1); empty otherwise |
| StarRating.Rating.GetStarColor | src/components/Rating.jsx:35-46 | gold exactly when `getStarStyle` draws a full or half star, grey (`#ccc`) exactly when it draws an empty one |
| SliderRating.RoundHalf | src/components/SliderRating.jsx:12 | a half step within (-0.25, 0.25] of the raw value, since ties round up; the range [0, 5] is preserved |
| SliderRating.FloorOfQuotient | src/components/SliderRating.jsx:12 | the floor of a real quotient of naturals is their integer quotient |
| SliderRating.RoundedSliderStep | src/components/SliderRating.jsx:10-14 | on each of the input's 51 positions k/10, the rounded value in halves is (2k+5) div 10 |
| SliderRating.Markers | src/components/SliderRating.jsx:22-25 | exactly the 11 values i·0.5, strictly increasing, all half steps in [0, 5] |
| SliderRating.Slider.constructor | src/components/SliderRating.jsx:4 | the slider starts at the `value` prop |
| SliderRating.Slider.SyncValue | src/components/SliderRating.jsx:6-8 | a new prop resets the slider value |
| SliderRating.Slider.HandleChange | src/components/SliderRating.jsx:10-14 | stores the rounded value, a half step within a quarter of the raw value; `onChange` is not called |
| SliderRating.Slider.HandleMouseUp | src/components/SliderRating.jsx:16-18 | `onChange` receives the current slider value |
| SliderRating.Slider.Percentage | src/components/SliderRating.jsx:20 | equals value × 20, which lies in [0, 100] for values in [0, 5] |
| SliderRating.Slider.IsLit | src/components/SliderRating.jsx:84 | a marker is lit when it does not exceed the slider value |
| SliderRating.Slider.LitMarkers | src/components/SliderRating.jsx:84 | for a half-step value, the lit markers are exactly the first 2·value+1 |
| Gallery.WithScore | src/App.jsx:719-725 | the edited sub-score takes the new value and the other three are kept |
| Gallery.Filled | src/App.jsx:365-373 | each sub-score of a loaded rating is present, with a missing one stored as 0 |
| Gallery.Merge | src/App.jsx:74-78 | page 1 replaces the list with what was received; any other page appends it after the existing items, in order |
| Gallery.LaterPagesAppend | src/App.jsx:74-78 | a run of pages numbered 2 or more appends their concatenation |
| Gallery.LoadingFromFirstPage | src/App.jsx:74-78 | loading page 1 and then each next page in order gives exactly the pages' items in order |
| Gallery.HasId | src/App.jsx:236 | `some(f => f.id === id)`: some entry has the id |
| Gallery.HasIdAppend | src/App.jsx:236-252 | an id occurs in the list plus an appended artwork exactly when it occurs in the list or is that artwork's id |
| Gallery.RemoveId | src/App.jsx:244 | the ids left are exactly the old ids other than `id`; every kept entry was in the list and lacks the id; the list is unchanged when the id is absent |
| Gallery.RemoveIdCounts | src/App.jsx:244 | every entry without the id keeps its multiplicity, and entries with the id occur zero times |
| Gallery.RemoveIdSnoc | src/App.jsx:244 | removing from a list with one more entry at its end removes from the list and keeps that entry exactly when it lacks the id |
| Gallery.RemoveIdConcat | src/App.jsx:244 | `filter` keeps the order: removing from a concatenation removes from each part |
| Gallery.RemoveIdSingle | src/App.jsx:244 | a one-element list loses its element exactly when that element has the id |
| Gallery.Toggled | src/App.jsx:236-253 | a favorite is removed by `RemoveId`; a non-favorite is appended at the end; the artwork's membership flips and no other id's membership changes |
| Gallery.ToggleTwice | src/App.jsx:227-258 | two successful toggles restore the membership; starting from a non-favorite they restore the list itself |
| Gallery.RatingsOf | src/App.jsx:146-154 | the map built from the rated list has exactly the returned ids as keys |
| Gallery.LastOccurrenceWins | src/App.jsx:146-154 | each id maps to the scores of its last occurrence |
| Gallery.CollectRatings | src/App.jsx:146-154 | the `forEach` loop builds exactly `RatingsOf` |
| Gallery.AppContent.constructor | src/App.jsx:10-37 | the initial state cells, with pagination page 1 and limit 20 |
| Gallery.AppContent.GetDisplayedArtworks | src/App.jsx:387-391 | favorites when shown; else rated when shown; else all artworks |
| Gallery.AppContent.GetPlaceholder | src/App.jsx:395-408 | the local text exactly in local mode, whatever the filter; in MET mode, one text per filter |
| Gallery.AppContent.SearchRequest | src/App.jsx:260-335 | none in the favorites or rated view; in MET mode, none for a blank query and otherwise a MET search with the filter; in local mode, page 1 of all artworks for a blank query on page 1, and otherwise a local search for the untrimmed query |
| Gallery.AppContent.MoreRequest | src/App.jsx:337-349 | none without a next page or while more is loading; otherwise the next favorites page, else the next rated page, else exactly the search request for the next page, which may be none |
| Gallery.AppContent.BlankMetQueryStallsLoadMore | src/App.jsx:296 | in the all-artworks view, MET mode with a blank query makes "load more" send nothing |
| Gallery.AppContent.BlankLocalQueryLoadsMoreFromSearch | src/App.jsx:261-264 | in local mode with a blank query, "load more" asks the local search for the next page, not the all-artworks list |
| Gallery.AppContent.StartLoading | src/App.jsx:68-69 | `loading` is set for page 1 and `loadingMore` for later pages |
| Gallery.AppContent.FetchArtworks | src/App.jsx:67-71 | requests the page with the current pagination's limit and sets the flags |
| Gallery.AppContent.FetchFavorites | src/App.jsx:95-99 | requests the favorites page with the current limit and sets the flags |
| Gallery.AppContent.FetchRatedArtworks | src/App.jsx:124-128 | requests the rated page with the current limit and sets the flags |
| Gallery.AppContent.HandleLocalSearch | src/App.jsx:260-272 | a blank query on page 1 falls back to `fetchArtworks(1)`; otherwise it sends a local search for the untrimmed query |
| Gallery.AppContent.HandleMetSearch | src/App.jsx:295-303 | a blank query does nothing; otherwise it sends a MET search with the filter |
| Gallery.AppContent.HandleSearch | src/App.jsx:327-335 | issues exactly `SearchRequest`; the flags follow the page requested, and are untouched when nothing is sent |
| Gallery.AppContent.LoadMore | src/App.jsx:337-349 | issues exactly `MoreRequest`; the flags are untouched when nothing is sent |
| Gallery.AppContent.CompleteArtworks | src/App.jsx:72-92 | a received body merges its page and installs its pagination, or the fallback; a thrown error keeps both; both flags end false |
| Gallery.AppContent.CompleteFavorites | src/App.jsx:100-121 | as above, but a thrown error empties the favorites |
| Gallery.AppContent.CompleteRated | src/App.jsx:129-162 | as above, but a thrown error empties the rated list; a received body merges the returned ratings, and ids not returned keep their entries |
| Gallery.AppContent.ShowFavorites | src/App.jsx:440-444 | the favorites view is shown, and page 1 of it is requested |
| Gallery.AppContent.ShowAll | src/App.jsx:445-450 | the all-artworks view is shown, page 1 is requested, and the query is cleared |
| Gallery.AppContent.ShowRated | src/App.jsx:451-455 | the rated view is shown, and page 1 of it is requested |
| Gallery.AppContent.ToggleFavorite | src/App.jsx:227-258 | when unauthenticated, only the auth prompt is shown; otherwise DELETE or POST is chosen by membership, and only an ok reply changes the list, to `Toggled` |
| Gallery.AppContent.SaveRating | src/App.jsx:180-225 | when unauthenticated, only the auth prompt is shown; an absent rating sends nothing; each sub-score is sent, or 0; only an ok reply replaces the entry, and in the rated view it reloads page 1 |
| Gallery.AppContent.OpenModal | src/App.jsx:351-379 | selects the artwork and closes the panel; an ok rating load stores the rating with missing sub-scores as 0 |
| Gallery.AppContent.CloseModal | src/App.jsx:381-384 | no artwork is selected and the panel is closed |
| Gallery.AppContent.EditScore | src/App.jsx:719-769 | only the edited field of the selected entry changes; its other fields and all other entries are kept |
| Gallery.LoadMoreAfterStartup | src/App.jsx:628-631 | after startup, when the first page of all artworks reports a next page, "load more" still sends no request |
| Gallery.SearchThenLoadMore | src/App.jsx:295-349 | a MET search for "Monet" asks for page 1 with limit 20; "load more" then asks the same search for page 2, and the list shown is the first page followed by the second |

## Left out

- HTTP and JSON are not modelled. This covers every `fetch`, `res.json()` and the URLs built from `import.meta.env` and `window.location`. Each network outcome is an input value. Request URLs become the `Request` and `Endpoint` values.
- Concurrency is not modelled: async interleaving, overlapping fetches, and when `useEffect` runs. Each fetch completion is one atomic step.
- The effects in `src/App.jsx:39-65` are not modelled. They redirect to the login screen and load the list when authentication or the view changes. `ShowFavorites`, `ShowRated` and `ShowAll` model the navigation handlers that start the same loads.
- The unused `loadRating` (`src/App.jsx:165-177`) is not modelled.
- The `setTimeout`-delayed close and redirect, `alert` and `console` are not modelled.
- JSX rendering, `styles`, `toFixed` display text, and the login and register screens switching on `authMode` are not modelled.
- Pointer geometry in `Rating.jsx` (`getBoundingClientRect`, `clientX`) is not modelled. The pointer's position within the star is a `real` input.
- JavaScript numbers (IEEE doubles) are modelled as exact `real` values. This covers `Math.round`, the pointer thresholds in `Rating.jsx` and `(sliderValue / 5) * 100`. Rounding error is not modelled; on the slider's k/10 positions the results agree.
- `AppContent` does not read the session context. Authentication is a free `authenticated` parameter of `ToggleFavorite`, `SaveRating` and `OpenModal`, and it is not tied to `AuthContext.AuthProvider`.
- `JSON.stringify` and `JSON.parse` of the stored user are taken to be exact inverses on a profile's JSON text. The only unparsable text modelled is the "undefined" stored for a missing user. A stored JSON `null` profile is not distinguished from a profile.
- A JSON `null` token or user in a register or login reply is treated as absent, like a missing field. The source stores "null" for it, and `getUser` parses that to no user instead of throwing. So after such a reply the model's `CheckUser` leaves `loading` true where the source ends it.
- `AuthContext.AuthProvider.CheckUser`: a profile is any non-empty stored text other than "undefined". The JSON-level case of a stored text that parses to a falsy value is not modelled.
- A sub-score of 0 is treated as present in `Gallery.Scores`. In the source, `x || 0` sends 0 either way, so the requests agree. NaN is not modelled.
- `src/components/Navbar.jsx`, `src/components/Login.jsx`, `src/components/ForgotPassword.jsx`, `src/pages/Contact.jsx`, `src/pages/MentionsLegales.jsx`, `src/pages/DonneesPersonnelles.jsx` and `vite.config.js` are not part of this model. They are UI, forwarding, third-party form submission, static text or build configuration.
