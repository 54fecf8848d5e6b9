# Sippure: a Dafny model of the storefront's decision logic

Sippure is an Android tea storefront written in Kotlin with Jetpack Compose
screens over Firebase. Most of its code is layout and animation. What this
project models is the logic that decides things:

- the form checks of each screen, in their source order;
- the keystroke filters of the price fields;
- the loading flags that disable buttons;
- the records written to the realtime database;
- the "remember me" preferences written on sign-in;
- the routing between screens;
- how the two repositories map a completed remote task to the
  `(ok, message[, uid])` values they hand to their callbacks.

Everything is pure functions over immutable datatypes. A screen's reaction
to a press is a `Common.Step`: the new screen state, an optional toast, an
optional remote call, and a navigation. The result of a remote call is not
computed. It is a parameter of the screen's completion function (`OnResult`,
`OnSaved`, `OnUploaded`, ...), so every property quantifies over every
outcome the service could report.

Modules, one per source file plus four shared ones:

- `Common`: options, verdicts, destinations, `Step`, and Kotlin's
  rendering of a null message in a string template.
- `Text`: Kotlin's `isBlank`, `isDigit`, `contains(ignoreCase)`,
  `split`/`joinToString`, `capitalize`.
- `Price`: `toDoubleOrNull` on strings of digits and dots, read as an exact
  decimal.
- `Store`: database values, records, and the effect of `setValue` and
  `updateChildren`.
- Screens: `AuthRepository`, `UserRepository`, `Profile`, `Search`,
  `AddProduct`, `UpdateProduct`, `Registration`, `Checkout`, `Login`,
  `Splash`, `Dashboard`, `Favourite`, `ForgetPassword`.

Behaviour worth knowing, each stated as a contract below:

- The registration screen's sign-up call is commented out. A passing submit
  only sets the loading flag, and nothing clears it (`Registration.LoadingIsPermanent`).
- Saving the edit-profile form replaces the whole user record. This clears
  the saved tea preferences (`Profile.EditSaveClearsPreferences`).
- The add-product price filter accepts any number of dots. "1.2.3" gets into
  the field but never parses (`AddProduct.SeveralDotsPassTheFilter`).
- The login form's two text fields call `testag`, a stub that throws, while
  they are composed (LoginActivity.kt:184 and :206). The fields appear 300 ms
  after the screen opens, so as written the login screen throws before any
  input. The Login members model the screen as if `testag` returned its
  receiver.
- In that model, the login callback reads the email, password and "remember
  me" box as they are when it runs. These fields stay editable while a sign-in
  is in flight.
- The splash screen opens the dashboard without an email extra. That
  dashboard therefore greets "Tea Lover".

## Model

Source paths are relative to the repository root.

| member | source | states |
|---|---|---|
| AuthRepository.Login | app/src/main/java/com/example/sippure/Repository/AuthRepositoryImpl.kt:16-26 | ok exactly when the sign-in task succeeded; success says "Login successfully"; a failure carries the exception's message, or the login fallback when there is no exception or no message |
| AuthRepository.CodeMessage | app/src/main/java/com/example/sippure/Repository/AuthRepositoryImpl.kt:44-50 | each of the three known error codes maps to its fixed text; any other code keeps the raw message |
| AuthRepository.Register | app/src/main/java/com/example/sippure/Repository/AuthRepositoryImpl.kt:34-55 | ok exactly when sign-up succeeded; success gives "Registered successfully" and the current uid, or "" when there is none; every failure gives uid ""; an auth exception's code goes through the fixed table; other failures give the message or the fallback |
| AuthRepository.KnownCodeHidesRawMessage | app/src/main/java/com/example/sippure/Repository/AuthRepositoryImpl.kt:44-48 | for a known code the reply is the same whatever the exception's message and the current user, and it is one of the three fixed texts |
| AuthRepository.KnownCodesDistinct | app/src/main/java/com/example/sippure/Repository/AuthRepositoryImpl.kt:46-48 | the three fixed texts tell the three known failures apart |
| AuthRepository.LoginRegisterAgree | app/src/main/java/com/example/sippure/Repository/AuthRepositoryImpl.kt:16-53 | sign-in and sign-up report success alike; a failure without a fixed text reports the same message through both |
| UserRepository.AddUserToDatabase | app/src/main/java/com/example/sippure/Repository/UserRepositoryImpl.kt:25-40 | the whole model is written at Users/<id>; ok exactly on success; "User added", or the exception's message, or the add fallback |
| UserRepository.UpdateProfile | app/src/main/java/com/example/sippure/Repository/UserRepositoryImpl.kt:42-57 | only the supplied children are sent, through `updateChildren` at Users/<id>; "User updated", or the message, or the update fallback |
| UserRepository.UpdateProfileIsPartial | app/src/main/java/com/example/sippure/Repository/UserRepositoryImpl.kt:47 | a child the update does not name keeps its presence and value; sending the same update again changes nothing |
| UserRepository.ForgetPassword | app/src/main/java/com/example/sippure/Repository/UserRepositoryImpl.kt:59-74 | ok exactly on success; "Reset email sent to <email>", or the message, or the reset fallback |
| UserRepository.Logout | app/src/main/java/com/example/sippure/Repository/UserRepositoryImpl.kt:110-120 | ok exactly when sign-out does not throw; "logout successfully", or the exception's message, or the logout fallback |
| UserRepository.GetUserById | app/src/main/java/com/example/sippure/Repository/UserRepositoryImpl.kt:80-108 | a model is returned exactly when ok, and ok exactly when the record exists and decodes; malformed, missing and cancelled reads each get their own message |
| UserRepository.AddThenGet | app/src/main/java/com/example/sippure/Repository/UserRepositoryImpl.kt:86-92 | a user written by `addUserToDatabase` is read back unchanged by `getUserById` |
| UserRepository.AddLeavesOthers | app/src/main/java/com/example/sippure/Repository/UserRepositoryImpl.kt:30 | writing one user's record leaves every other user's read unchanged |
| Store.ApplyUpdate | app/src/main/java/com/example/sippure/Repository/UserRepositoryImpl.kt:47 | a partial update replaces the named children, deletes those set to null, and leaves every other child as it was |
| Store.ApplyUpdateIdempotent | app/src/main/java/com/example/sippure/Repository/UserRepositoryImpl.kt:47 | applying the same partial update twice equals applying it once |
| Search.Catalogue | app/src/main/java/com/example/sippure/view/SearchActivity.kt:71-78 | four teas with ids "1".."4", pairwise distinct |
| Search.Filter | app/src/main/java/com/example/sippure/view/SearchActivity.kt:83-86 | the result is an order-preserving subsequence of the catalogue; every kept tea matches; every matching tea is kept |
| Search.EmptyQueryKeepsAll | app/src/main/java/com/example/sippure/view/SearchActivity.kt:83-86 | the empty query keeps every tea, in order |
| Search.FilterCountsCopies | app/src/main/java/com/example/sippure/view/SearchActivity.kt:83-86 | every copy of a matching tea is kept and no copy of any other, so the result is fixed for lists with repeats too |
| Text.ContainsIgnoreCaseIsLoweredContains | app/src/main/java/com/example/sippure/view/SearchActivity.kt:84-85 | containment ignoring case is exactly containment after lower-casing both texts |
| Search.OnQueryChange | app/src/main/java/com/example/sippure/view/SearchActivity.kt:119 | the query is replaced and the favourites are untouched |
| Search.ToggleFavourite | app/src/main/java/com/example/sippure/view/SearchActivity.kt:144-148 | the id's membership flips and no other id changes |
| Search.OnFavouriteClick | app/src/main/java/com/example/sippure/view/SearchActivity.kt:139-148 | a heart click flips that tea's id only and keeps the query |
| Search.ToggleTwiceRestores | app/src/main/java/com/example/sippure/view/SearchActivity.kt:144-148 | two clicks on the same heart restore the favourite set |
| Search.FavouritesAndQueryIndependent | app/src/main/java/com/example/sippure/view/SearchActivity.kt:80-86 | the visible list does not depend on the favourites, and query edits and heart clicks commute on the favourites |
| Profile.Decode | app/src/main/java/com/example/sippure/view/ProfileActivity.kt:140-143 | a missing child falls back to "Tea Enthusiast", "user@sippure.com" or the empty list |
| Profile.DecodeEncode | app/src/main/java/com/example/sippure/view/ProfileActivity.kt:140-143 | a profile stored with `setValue` reads back as itself |
| Profile.LoadProfile | app/src/main/java/com/example/sippure/view/ProfileActivity.kt:137-155 | an existing record is decoded with no write; a missing one becomes the default profile, which is written back; a failed read gives the default profile, a "Failed to load profile: ..." toast and no write |
| Profile.WriteBackIsStable | app/src/main/java/com/example/sippure/view/ProfileActivity.kt:144-146 | after the write-back, the next load finds the default profile and writes nothing |
| Profile.AvatarInitial | app/src/main/java/com/example/sippure/view/ProfileActivity.kt:212 | the upper-cased first character of the name, or "U" when the name is absent or empty |
| Profile.AvatarUsesFirstCharacter | app/src/main/java/com/example/sippure/view/ProfileActivity.kt:447 | names with the same first character get the same avatar; the default profile shows "T" |
| Profile.LoadEditForm | app/src/main/java/com/example/sippure/view/ProfileActivity.kt:373-388 | name and email come from the record with defaults; a missing record or a failed read gives the defaults |
| Profile.ValidateEdit | app/src/main/java/com/example/sippure/view/ProfileActivity.kt:505-509 | passes exactly when neither name nor email is blank; otherwise "All fields are required" |
| Profile.EditSaveClick | app/src/main/java/com/example/sippure/view/ProfileActivity.kt:505-515 | disabled while loading; a failed check shows its message and makes no write; a pass enters loading |
| Profile.EditSaveEffect | app/src/main/java/com/example/sippure/view/ProfileActivity.kt:526-541 | the whole record is written with empty preferences unless issuing the write throws; the loading flag drops; "Profile saved!" returns to the overview; failures show "Save failed: ..." or "Error: ..." and stay |
| Profile.EditSaveClearsPreferences | app/src/main/java/com/example/sippure/view/ProfileActivity.kt:529-530 | after a saved edit, the overview loads the entered name and email and an empty preference list |
| Profile.ValidatePassword | app/src/main/java/com/example/sippure/view/ProfileActivity.kt:902-909 | a confirmation mismatch is reported before a short password; it passes exactly when they match and the password has at least 6 characters |
| Profile.CurrentPasswordIgnored | app/src/main/java/com/example/sippure/view/ProfileActivity.kt:901-911 | the current-password field never affects the check |
| Profile.PasswordClick | app/src/main/java/com/example/sippure/view/ProfileActivity.kt:901-915 | disabled while loading; a failed check shows its message; a pass enters loading |
| Profile.PasswordEffect | app/src/main/java/com/example/sippure/view/ProfileActivity.kt:926-931 | no remote call at all; "Password updated successfully!", back to the overview, loading cleared |
| Profile.TeaNameIsTextAfterFirstSpace | app/src/main/java/com/example/sippure/view/ProfileActivity.kt:657 | splitting on spaces, dropping the first field and re-joining gives exactly the text after the first space, or "" when there is no space |
| Profile.TeaNameDropsEmoji | app/src/main/java/com/example/sippure/view/ProfileActivity.kt:657 | an emoji token, a space and a name give back the name |
| Profile.OptionStoresName | app/src/main/java/com/example/sippure/view/ProfileActivity.kt:560-567 | each of the six options stores its name without the emoji |
| Profile.ToggleRowFlips | app/src/main/java/com/example/sippure/view/ProfileActivity.kt:662-666 | a row click flips that tea's membership, leaves every other tea alone, and keeps the selection free of repeats |
| Profile.ToggleRowTwice | app/src/main/java/com/example/sippure/view/ProfileActivity.kt:662-666 | two row clicks restore the selected teas, and restore the exact sequence from an unselected tea |
| Profile.SetCheckedExact | app/src/main/java/com/example/sippure/view/ProfileActivity.kt:673-675 | a checkbox change makes membership equal the checked value, touches no other tea, is idempotent, and a row click equals the change to the opposite state |
| Profile.Dedup | app/src/main/java/com/example/sippure/view/ProfileActivity.kt:574 | `toSet` keeps each element once and keeps exactly the list's elements |
| Profile.DedupKeepsFirstOccurrenceOrder | app/src/main/java/com/example/sippure/view/ProfileActivity.kt:574 | the set lists its elements in the order of their first occurrences in the list, as a LinkedHashSet does |
| Profile.DedupNoDup | app/src/main/java/com/example/sippure/view/ProfileActivity.kt:574 | a list without repeats is its own set, order included |
| Profile.LoadPreferences | app/src/main/java/com/example/sippure/view/ProfileActivity.kt:570-578 | a stored list replaces the selection with its elements, once each in first-occurrence order; a stored value that is not a list empties the selection; a missing node or a failed read leaves the selection as it was |
| Profile.PrefsSaveClick | app/src/main/java/com/example/sippure/view/ProfileActivity.kt:702-715 | an empty selection gives "Please select at least one tea!" and no save; otherwise loading starts |
| Profile.PrefsSaveEffect | app/src/main/java/com/example/sippure/view/ProfileActivity.kt:745-760 | the selection is written as a list at users/user_123/preferences unless issuing the write throws; the loading flag drops; the success or failure message follows |
| Profile.PrefsSaveLoadRoundTrip | app/src/main/java/com/example/sippure/view/ProfileActivity.kt:748-749 | saved preferences are loaded back unchanged by the preferences screen and appear in the overview's profile |
| AddProduct.EditPrice | app/src/main/java/com/example/sippure/view/AddProductActivity.kt:190-193 | a proposed text is taken exactly when all its characters are digits or dots; otherwise the field is unchanged |
| AddProduct.PriceFieldStaysNumeric | app/src/main/java/com/example/sippure/view/AddProductActivity.kt:190-193 | whatever is typed, the field holds only digits and dots |
| AddProduct.SeveralDotsPassTheFilter | app/src/main/java/com/example/sippure/view/AddProductActivity.kt:190-193 | "1.2.3" is accepted by the filter and does not parse |
| Price.ParseDecimal | app/src/main/java/com/example/sippure/view/AddProductActivity.kt:204 | a digits-and-dots text parses exactly when it has at most one dot and a digit; the value is never negative, and it is positive exactly when some digit is not '0' |
| AddProduct.Validate | app/src/main/java/com/example/sippure/view/AddProductActivity.kt:204-210 | a missing image is reported first, then a blank field, then an unparseable or non-positive price; the checks pass exactly when an image is picked, nothing is blank and the price parses to a positive number |
| AddProduct.ValidateCharacterised | app/src/main/java/com/example/sippure/view/AddProductActivity.kt:204-210 | for a filtered price, the checks pass exactly when an image is picked, name and description are not blank, and the price has at most one dot and a non-zero digit |
| AddProduct.EnabledIsWeakerThanValid | app/src/main/java/com/example/sippure/view/AddProductActivity.kt:238 | a passing form enables the button, but an enabled button can still fail the checks for a zero price or a missing image |
| AddProduct.Submit | app/src/main/java/com/example/sippure/view/AddProductActivity.kt:203-212 | a disabled button does nothing; a failed check shows its message and calls nothing; otherwise exactly the upload of the picked image starts, with the parsed positive price |
| AddProduct.OnUploaded | app/src/main/java/com/example/sippure/view/AddProductActivity.kt:212-233 | no URL gives "Image upload failed. Try again." and no write; a URL writes a product with an empty id, the current name and description, the price from the press, and the URL |
| AddProduct.OnAdded | app/src/main/java/com/example/sippure/view/AddProductActivity.kt:221-229 | the message is shown; only success returns to the dashboard and closes the screen |
| AddProduct.Back | app/src/main/java/com/example/sippure/view/AddProductActivity.kt:107-115 | the back arrow returns to the dashboard and closes the screen |
| AddProduct.SubmittedProductIsValid | app/src/main/java/com/example/sippure/view/AddProductActivity.kt:214-220 | with the fields untouched during the upload, the written product has an empty id, non-blank name and description, a positive price, and exactly the form's values and the URL |
| UpdateProduct.Populate | app/src/main/java/com/example/sippure/view/UpdateProductActivity.kt:83-88 | each loaded value fills its field, and an absent one becomes "" |
| UpdateProduct.EditPrice | app/src/main/java/com/example/sippure/view/UpdateProductActivity.kt:198-202 | a proposed text is taken exactly when it has only digits and dots and at most one dot |
| UpdateProduct.PriceFieldStaysDecimal | app/src/main/java/com/example/sippure/view/UpdateProductActivity.kt:198-202 | a filtered field stays filtered, and then it parses unless it is "" or "." |
| Price.SingleDotParses | app/src/main/java/com/example/sippure/view/UpdateProductActivity.kt:198-202 | among texts of digits with at most one dot, exactly "" and "." fail to parse |
| UpdateProduct.Validate | app/src/main/java/com/example/sippure/view/UpdateProductActivity.kt:247-251 | a blank field is reported before the price; an unparseable or non-positive price gives "Please enter a valid price"; the checks pass exactly when nothing is blank and the price parses to a positive number |
| UpdateProduct.ValidateCharacterised | app/src/main/java/com/example/sippure/view/UpdateProductActivity.kt:247-251 | for a filtered price, the checks pass exactly when name and description are not blank and the price has a non-zero digit |
| UpdateProduct.UpdateData | app/src/main/java/com/example/sippure/view/UpdateProductActivity.kt:254-259 | the map has exactly the keys productDesc, productPrice, productName and productId, with the form's values and a null id when none was given |
| UpdateProduct.Submit | app/src/main/java/com/example/sippure/view/UpdateProductActivity.kt:246-271 | a disabled button does nothing; a failed check shows its message; a pass sets loading and sends exactly one update with the id's text and the map |
| UpdateProduct.OnUpdated | app/src/main/java/com/example/sippure/view/UpdateProductActivity.kt:263-267 | loading ends and the message is shown; the screen closes only on success |
| UpdateProduct.OneUpdateInFlight | app/src/main/java/com/example/sippure/view/UpdateProductActivity.kt:253-271 | a second press while loading does nothing, and the callback re-enables the button |
| UpdateProduct.UpdateIsPartial | app/src/main/java/com/example/sippure/view/UpdateProductActivity.kt:254-261 | applied to a stored product, the map changes only its four keys, and sending it twice changes nothing more |
| Registration.Validate | app/src/main/java/com/example/sippure/view/RegistratinActivity.kt:334-345 | blank email or password is reported first, then blank names, then a country still on "Select Country"; the checks pass exactly when all four fields are non-blank and a country is chosen |
| Registration.Handle | app/src/main/java/com/example/sippure/view/RegistratinActivity.kt:185-422 | while loading every control is inert; choosing from the shown menu sets the country and closes the menu; a passing submit only sets loading and makes no call; only the sign-in link leaves |
| Registration.ChoosingACountryClearsTheCheck | app/src/main/java/com/example/sippure/view/RegistratinActivity.kt:295-298 | choosing a listed country selects it, closes the menu, and clears the country check |
| Registration.LoadingIsPermanent | app/src/main/java/com/example/sippure/view/RegistratinActivity.kt:347-372 | once loading, no sequence of events changes the screen |
| Registration.PassingSubmitSticks | app/src/main/java/com/example/sippure/view/RegistratinActivity.kt:347-370 | a passing submit ends in the stuck loading state without any call |
| Checkout.ReadExtras | app/src/main/java/com/example/sippure/view/CheckoutActivity.kt:64-66 | absent extras default to "Selected Product", 0.0 and 0 |
| Checkout.Handle | app/src/main/java/com/example/sippure/view/CheckoutActivity.kt:464-518 | typing sets the address; both payment controls set cash on delivery |
| Checkout.PaymentIsAlwaysCash | app/src/main/java/com/example/sippure/view/CheckoutActivity.kt:283-518 | the payment option starts as, and after any events remains, "Cash on Delivery" |
| Checkout.RunKeepsCash | app/src/main/java/com/example/sippure/view/CheckoutActivity.kt:512-518 | no event moves the payment option away from cash on delivery |
| Checkout.OrderRecord | app/src/main/java/com/example/sippure/view/CheckoutActivity.kt:117-125 | the record has exactly the seven keys, holding the push key, the product, the address, the payment method and the timestamp |
| Checkout.Confirm | app/src/main/java/com/example/sippure/view/CheckoutActivity.kt:76-127 | a blank address gives "Please enter your delivery address." and no write; no push key means no write and no callback; otherwise the order is written at orders/user_123/<key> |
| Checkout.OnSaved | app/src/main/java/com/example/sippure/view/CheckoutActivity.kt:86-134 | success says "Order confirmed and saved successfully!" and opens the dashboard, closing checkout; failure says "Failed to save order: ..." and stays |
| Checkout.Back | app/src/main/java/com/example/sippure/view/CheckoutActivity.kt:74 | the back arrow closes the screen |
| Checkout.PlacedOrderReadsBack | app/src/main/java/com/example/sippure/view/CheckoutActivity.kt:112-127 | the order id equals the last path segment under orders/user_123, and the stored record reads back the address, the product and cash on delivery |
| Login.Prefill | app/src/main/java/com/example/sippure/view/LoginActivity.kt:81-84 | the fields start with the stored email and password, or "" when absent |
| Login.Click | app/src/main/java/com/example/sippure/view/LoginActivity.kt:268-270 | disabled while loading; otherwise loading starts and one sign-in with the fields is requested |
| Login.Remember | app/src/main/java/com/example/sippure/view/LoginActivity.kt:274-282 | with "remember me" both credentials are stored, without it both are removed; no other key changes |
| Login.OnResult | app/src/main/java/com/example/sippure/view/LoginActivity.kt:271-292 | loading ends and the message is shown; success updates the stored credentials and opens the dashboard with the email; failure changes nothing else and stays |
| Login.RememberRoundTrip | app/src/main/java/com/example/sippure/view/LoginActivity.kt:274-282 | after a remembered sign-in the next login screen pre-fills the same credentials; after one without "remember me" it pre-fills nothing |
| Login.FailureKeepsPrefill | app/src/main/java/com/example/sippure/view/LoginActivity.kt:289-291 | a failed sign-in leaves the next pre-fill as it was |
| Login.OneSignInInFlight | app/src/main/java/com/example/sippure/view/LoginActivity.kt:268-304 | a second press before the callback does nothing, and the callback re-enables the button |
| Splash.StoredEmail | app/src/main/java/com/example/sippure/view/SplashActivity.kt:57 | a missing stored email reads as "" |
| Splash.Route | app/src/main/java/com/example/sippure/view/SplashActivity.kt:174-184 | an empty stored email opens login, any other opens the dashboard; the splash closes either way |
| Splash.Press | app/src/main/java/com/example/sippure/view/SplashActivity.kt:301-303 | before the button is shown a press does nothing; afterwards it routes |
| Splash.RouteReadsOnlyEmail | app/src/main/java/com/example/sippure/view/SplashActivity.kt:174-184 | two preference files with the same stored email route alike |
| Splash.RouteAfterSignIn | app/src/main/java/com/example/sippure/view/SplashActivity.kt:174-184 | after a successful sign-in the splash routes to the dashboard exactly when "remember me" was ticked with a non-empty email |
| Dashboard.Greeting | app/src/main/java/com/example/sippure/view/DashboardActivity.kt:57 | an absent extra gives "Tea Lover"; otherwise the text before the first '@' capitalised, or the whole email capitalised when it has no '@' |
| Dashboard.GreetingChangesOnlyFirstCharacter | app/src/main/java/com/example/sippure/view/DashboardActivity.kt:57 | the greeting has the local part's length, no '@', and differs from it at most in the first character, which is upper-cased |
| Dashboard.SignInGreets | app/src/main/java/com/example/sippure/view/DashboardActivity.kt:57 | a successful sign-in opens a dashboard greeting the signed-in email |
| Dashboard.Blends | app/src/main/java/com/example/sippure/view/DashboardActivity.kt:232-237 | four featured blends with distinct names and positive prices |
| Dashboard.OnTap | app/src/main/java/com/example/sippure/view/DashboardActivity.kt:76-215 | every tap opens a screen over the dashboard without closing it; a card forwards its blend's name, description, image and price unchanged |
| Dashboard.CardsOpenDistinctDetails | app/src/main/java/com/example/sippure/view/DashboardActivity.kt:191-199 | different featured cards open different detail screens |
| Favourite.Validate | app/src/main/java/com/example/sippure/view/FavouriteActivity.kt:193-196 | passes exactly when tea name and tea type are not blank; otherwise "Please fill in all required fields" |
| Favourite.Submit | app/src/main/java/com/example/sippure/view/FavouriteActivity.kt:192-206 | disabled while loading; a failed check shows its message and stays; a pass shows "Favourite tea saved: <name>", ends not loading and closes; no call is made |
| Favourite.DescriptionNotRequired | app/src/main/java/com/example/sippure/view/FavouriteActivity.kt:193 | the description never affects a save's message or navigation |
| ForgetPassword.Submit | app/src/main/java/com/example/sippure/view/ForgetPasswordActivity.kt:182-207 | disabled while loading; a blank email gives "Please enter your email address" and no call; otherwise loading starts and exactly one reset request is made |
| ForgetPassword.OnResult | app/src/main/java/com/example/sippure/view/ForgetPasswordActivity.kt:185-196 | loading ends and the message is shown; success opens login and closes the screen; failure stays |
| ForgetPassword.ResetThroughStore | app/src/main/java/com/example/sippure/view/ForgetPasswordActivity.kt:183-196 | through the user store, a completed reset shows "Reset email sent to <email>" and returns to login; a failed one stays and can be retried |

## Left out

- Compose layout, theming, colours, gradients and animations are not modelled, including the floating-leaf animations that use `sin` and the clock. They are presentation, not decisions.
- The Firebase Auth, Realtime Database and Cloudinary SDKs are not modelled. Their outcomes are parameters. A node "exists" when it is a key of the model's map.
- SharedPreferences is a string-to-string map.
- The push key, the order timestamp, the coroutine delays of the splash and change-password screens, and `LaunchedEffect` scheduling are inputs, not modelled behaviour.
- Price display formatting (`% 1.0` and `String.format`) is not modelled. It is floating-point formatting.
- ImageUtils.kt (permission and picker plumbing), ProductDetailActivity.kt (reads extras and formats floats), UserProfile.kt, the AuthRepository.kt interface and build.gradle.kts are not modelled.
- The tests are not modelled: CalculationUnitTest targets a class that is not part of this model, and LoginInstrumentedTest targets a tag the screen does not define.
- Login.Prefill, Login.Click, Login.OnResult and Login.Remember: the form calls `testag` while composing its email and password fields (LoginActivity.kt:184, 206), and that stub throws, so as written the screen throws about 300 ms after it opens, before any input. These members, and Splash.RouteAfterSignIn and Dashboard.SignInGreets that build on them, model the screen as if `testag` returned its receiver.
- `getCurrentUser` only passes the identity service's current user through.
- The view models and the product repository are not part of this model. Their calls are the `Call` values the screens emit.
- The profile overview's logout button has an empty handler. The back and sign-in links that only switch screens are not modelled.
- Price.ParseDecimal: covers only texts of ASCII digits and dots, read as exact decimals. Signs, exponents, hexadecimal, "NaN"/"Infinity" and binary rounding are not modelled. This is all the two filtered fields can hold, except a price filled in by `UpdateProduct.Populate` whose text `Double.toString` wrote in exponent form.
- UpdateProduct.Populate: takes the loaded price as text and does not model `Double.toString`.
- Text.IsDigit, Text.Upper, Text.Lower and Text.Capitalize: ASCII only. Kotlin's Unicode digit and case tables are not modelled.
- Profile.ValidatePassword: counts characters of the model's strings, where Kotlin counts UTF-16 code units.
- Profile.EditSaveEffect and Profile.PrefsSaveEffect: fold the launch of the write and its completion into one step. The loading flag really drops right after the launch, before the completion toast.
- UserRepository.AddUserToDatabase: the stored user model is abstract, because its class is not part of this model. Decoding failures are an input.
