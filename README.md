# Ranjaya storefront: cart engine and page logic in Dafny

This project models the client-side logic of the Ranjaya clothing storefront:

- the slide-out shopping cart (current and legacy versions): line items, per-item selection for checkout, quantities and sizes, the `RANJAYA10` / `WELCOME20` coupons, the ₹199 shipping fee and the checkout flow;
- the sign-in / sign-up page and the contact form: field-by-field validation into an error object, submission and reset;
- the customer-review carousel: stable sorting by stars then id, responsive slide sizes, wrap-around arrows and swipes;
- the best-seller page sort;
- the product carousel, the "You May Also Like" strip and the product page: quantity stepper, total price, image gallery and add-to-cart flags;
- the home-page banner and trending-collection carousels;
- the header: active-link test, mobile menu, search, and the category drawer it opens.

Each React component whose handlers update state becomes a Dafny `class`:

- each `useState` becomes a field;
- each handler becomes a method with `modifies` and a postcondition that gives the new state;
- a new state that comes from a pure computation is stated through a function of the old state (`items == WithQuantity(old(items), id, q)`).

The pure parts are functions with lemmas about them:

- subtotal, coupon arithmetic and size options;
- the validators and the error objects they build;
- sorting, slicing into slides and wrap-around indices;
- the path-prefix test.

The shared modules are:

- `Text`: character classes, trimming, ASCII case mapping, `startsWith` / `includes`;
- `Sorting`: a stable insertion sort with a comparator, standing in for `Array.prototype.sort`;
- `Carousel`: wrap-around, `Math.ceil` division, `Array.prototype.slice`, swipe classification;
- `Pricing`: coupon and totals, used by both carts;
- `ErrorMap`: the `{field: message}` error objects.

Two modules model sources of nondeterminism as parameters:

- `Auth` and `Contact`: the phone-number library's verdict is the `phoneValid` parameter;
- `Contact`: the success of the web request is the `delivered` parameter.

## Model

| member | source | states |
|---|---|---|
| Text.TrimStart | client/src/Pages/Contact/ContactForm.jsx:70 | the result is a suffix of the input that does not start with whitespace |
| Text.TrimEnd | client/src/Pages/Contact/ContactForm.jsx:70 | the result is a prefix of the input that does not end with whitespace |
| Text.TrimEmptyIffBlank | client/src/Pages/Contact/ContactForm.jsx:70-72 | `trim()` gives "" exactly when every character is whitespace, so the "required" test rejects exactly the blank inputs |
| Text.TrimStartEmptyIffBlank | client/src/Pages/Contact/ContactForm.jsx:99-101 | trimming the front alone empties exactly the blank strings |
| Text.TrimEndKeepsNonBlankHead | client/src/Pages/Contact/ContactForm.jsx:99-101 | trimming the end keeps a non-blank first character |
| Text.ToUpper | client/src/components/CartComponent.jsx:106 | `toUpperCase` keeps the length and leaves no lower-case ASCII letter |
| Text.ToLower | client/src/components/CartComponent.jsx:213 | `toLowerCase` keeps the length, lower-cases each ASCII letter in place and leaves no upper-case ASCII letter |
| Text.ToUpperIdempotent | client/src/components/CartComponent.jsx:106-111 | upper-casing twice is upper-casing once |
| Text.ContainsChar | client/src/Authentication/AuthPage.jsx:51-56 | every character of a contained substring occurs in the string |
| Sorting.Insert | client/src/Pages/Home/CustomerReviews.jsx:88-96 | inserting adds exactly that element to the multiset |
| Sorting.Sort | client/src/Pages/Home/CustomerReviews.jsx:88-96 | the sort is a permutation of its input |
| Sorting.InsertSorted | client/src/Pages/Home/CustomerReviews.jsx:88-96 | under a total preorder, inserting into a sorted list keeps it sorted |
| Sorting.SortSorted | client/src/Pages/Home/CustomerReviews.jsx:88-96 | under a total preorder, the comparator sort yields a sorted list |
| Sorting.SortOfSorted | client/src/Pages/Best-Sellers/BestSeller.jsx:79-103 | sorting an already sorted list leaves it unchanged, so the sort is stable on sorted input |
| Sorting.InsertTies | client/src/Pages/Best-Sellers/BestSeller.jsx:85-92 | inserting an element puts it ahead of the elements it ties with and keeps their order |
| Sorting.SortStable | client/src/Pages/Best-Sellers/BestSeller.jsx:85-92 | under any total preorder the elements tied with a given one come out in their input order: the sort is stable |
| Carousel.WrapNext | client/src/Pages/Home/CustomerReviews.jsx:163-167 | "next" from the last slide goes to the first: in range it is `(i + 1) mod n` |
| Carousel.WrapPrev | client/src/Pages/Home/CustomerReviews.jsx:169-173 | "previous" from the first slide goes to the last: in range it is `(i - 1) mod n` |
| Carousel.PrevUndoesNext | client/src/Pages/Home/CustomerReviews.jsx:163-173 | the two arrows undo each other on every in-range index |
| Carousel.CeilDiv | client/src/Pages/Home/CustomerReviews.jsx:160 | `Math.ceil(n / k)` is the least r with n <= r·k, and is 0 only for n = 0 |
| Carousel.RelativeIndex | client/src/components/ProductCarouselSection.jsx:104-115 | a slice bound is clamped into `[0, len]` |
| Carousel.JsSlice | client/src/components/ProductCarouselSection.jsx:104-115 | `slice(start, end)` is the subsequence between the clamped bounds |
| Carousel.Slide | client/src/Pages/Home/CustomerReviews.jsx:222-223 | a slide holds at most k items, is non-empty exactly for the first `ceil(n / k)` indices, and is empty after them |
| Carousel.ShownPrefix | client/src/Pages/Home/CustomerReviews.jsx:222-223 | the first m slides side by side are the first m·k items |
| Carousel.SlidesPartition | client/src/Pages/Home/CustomerReviews.jsx:160-223 | all `ceil(n / k)` slides side by side give back the whole list in order |
| Carousel.SlidesInRangeAreFilled | client/src/Pages/Home/CustomerReviews.jsx:160-223 | every reachable slide shows between one and k items |
| Carousel.SlideOfPosition | client/src/Pages/Home/CustomerReviews.jsx:222-223 | item p appears on slide p / k at offset p mod k |
| Carousel.SwipeOf | client/src/Pages/Home/CustomerReviews.jsx:188-196 | a drag within the threshold is no swipe; "next" means the finger moved left, "previous" that it moved right |
| Carousel.AfterSwipe | client/src/Pages/Home/CustomerReviews.jsx:188-196 | a swipe moves an in-range index by one with wrap-around and keeps it in range; no swipe keeps it |
| Pricing.CouponRate | client/src/components/CartComponent.jsx:104-121 | only two codes are known, worth 10 and 20 percent |
| Pricing.CouponRateIgnoresCase | client/src/components/CartComponent.jsx:106-111 | the code is compared after upper-casing, so case does not matter |
| Pricing.RoundedPercent | client/src/components/CartComponent.jsx:107-112 | `Math.round(s · p / 100)` is within half a rupee of the exact discount and never exceeds the subtotal |
| Pricing.ApplyCoupon | client/src/components/CartComponent.jsx:104-121 | the coupon is applied exactly for a known code, with the rounded discount; otherwise the invalid-code message is set; the discount never exceeds a non-negative subtotal |
| Pricing.FreshDiscountKeepsTotalAboveShipping | client/src/components/CartComponent.jsx:71-74 | with a discount computed from the current subtotal the total is never below the shipping fee, so it is never negative |
| Pricing.StaleDiscountCanMakeTotalNegative | client/src/Pages/CartComponent.jsx:55-57 | a `WELCOME20` discount of ₹2000, kept after the subtotal shrinks to ₹10 (legacy cart), makes the total negative |
| Pricing.Ranjaya10OnThousand | client/src/components/CartComponent.jsx:106-110 | `RANJAYA10`, in any letter case, on ₹1000 applies with ₹100 off and no error |
| Pricing.Welcome20WorkedExample | client/src/components/CartComponent.jsx:111-115 | `WELCOME20`, in any letter case, on ₹1100 gives ₹220 off and a total of ₹1079; with the coupon reset, ₹500 costs ₹699 |
| Pricing.LowerCaseWelcome20Rate | client/src/components/CartComponent.jsx:111 | the code is upper-cased before matching, so `welcome20` is worth 20% |
| Pricing.UnknownCodeIsInvalid | client/src/components/CartComponent.jsx:116-120 | an unknown code gives no discount and the error message |
| ShoppingCart.SelectedItems | client/src/components/CartComponent.jsx:71 | the checkout list holds exactly the selected items |
| ShoppingCart.UnselectedItems | client/src/components/CartComponent.jsx:173 | what checkout leaves holds exactly the unselected items |
| ShoppingCart.UnselectedItemsAppend | client/src/components/CartComponent.jsx:173 | the filter distributes over concatenation, so the unselected lines stay in their original order |
| ShoppingCart.SelectionSplitsCart | client/src/components/CartComponent.jsx:71-173 | selected and unselected together are a permutation of the cart |
| ShoppingCart.SumLinesAppend | client/src/components/CartComponent.jsx:72 | the price·quantity sum distributes over concatenation |
| ShoppingCart.SelectedItemsAppend | client/src/components/CartComponent.jsx:71 | the selection filter distributes over concatenation |
| ShoppingCart.SubtotalAppend | client/src/components/CartComponent.jsx:71-72 | the subtotal of two carts side by side is the sum of their subtotals |
| ShoppingCart.AddingUnselectedKeepsSubtotal | client/src/components/CartComponent.jsx:71-72 | an unselected line does not change the subtotal |
| ShoppingCart.SubtotalDependsOnlyOnSelected | client/src/components/CartComponent.jsx:71-72 | carts that agree on the selection and on the selected lines' totals have the same subtotal |
| ShoppingCart.SumLinesNonNegative | client/src/components/CartComponent.jsx:72 | with positive quantities the sum is non-negative |
| ShoppingCart.SubtotalNonNegative | client/src/components/CartComponent.jsx:71-72 | with positive quantities the subtotal is non-negative |
| ShoppingCart.AfterCheckoutNothingToPay | client/src/components/CartComponent.jsx:170-175 | after checkout nothing left is selected: subtotal 0 and total 0 |
| ShoppingCart.WithoutId | client/src/components/CartComponent.jsx:86 | removal keeps exactly the lines with another id, and shortens the cart when the id was present |
| ShoppingCart.WithoutIdAppend | client/src/components/CartComponent.jsx:86 | removal distributes over concatenation, so the kept lines stay in order, each as often as before |
| ShoppingCart.RemoveUniqueLine | client/src/components/CartComponent.jsx:86 | removing an id that only line k has gives the cart without line k, the rest in order |
| ShoppingCart.QuantityOfUnselectedKeepsSubtotal | client/src/components/CartComponent.jsx:77-82 | changing the quantity of an unselected line leaves the subtotal alone |
| ShoppingCart.WithQuantityKeepsPositive | client/src/components/CartComponent.jsx:77-82 | a quantity update of at least one keeps every quantity positive |
| ShoppingCart.AllSelectedFilterIsIdentity | client/src/components/CartComponent.jsx:194-208 | when every line is selected the checkout list is the whole cart |
| ShoppingCart.AllSelectedSubtotalIsWholeCart | client/src/components/CartComponent.jsx:194-208 | when every line is selected the subtotal is the whole cart's sum |
| ShoppingCart.NoneSelectedFilterIsEmpty | client/src/components/CartComponent.jsx:194-205 | when no line is selected the checkout list is empty |
| ShoppingCart.SelectAllOutcome | client/src/components/CartComponent.jsx:194-208 | "select all" makes the box checked exactly for a non-empty cart and the subtotal the whole cart; "deselect all" empties the checkout list and zeroes the subtotal |
| ShoppingCart.ToggleSelectionTwice | client/src/components/CartComponent.jsx:145-155 | toggling one item's selection twice restores the cart |
| ShoppingCart.GetSizeOptions | client/src/components/CartComponent.jsx:211-219 | a saree gets the single "Free Size" option, anything else the six sizes of the chosen format |
| ShoppingCart.CapitalisedSareeGetsFreeSize | client/src/components/CartComponent.jsx:211-214 | a name containing "Saree" passes the lower-cased "saree" test and gets only the free size |
| ShoppingCart.InitialSareeLinesGetFreeSize | client/src/components/CartComponent.jsx:211-214 | the "Traditional Cotton Saree" line the cart starts with offers only the free size, in either format |
| ShoppingCart.FormatMattersExactlyForNonSarees | client/src/components/CartComponent.jsx:211-224 | the letter/numeric switch changes the options exactly for non-saree items |
| ShoppingCart.ItemCountAtLeastLines | client/src/components/CartComponent.jsx:267 | the badge count is at least the number of lines |
| ShoppingCart.WorkedExampleSubtotals | client/src/components/CartComponent.jsx:71-74 | a two-line cart of ₹1100: deselecting the ₹600 line leaves a subtotal of ₹500 |
| ShoppingCart.Cart.constructor | client/src/components/CartComponent.jsx:59-68 | the cart starts with the initial items, closed, with no coupon and letter sizes |
| ShoppingCart.Cart.UpdateQuantity | client/src/components/CartComponent.jsx:77-82 | quantities below one are ignored; otherwise the item's quantity is set and nothing else changes |
| ShoppingCart.Cart.RemoveItem | client/src/components/CartComponent.jsx:85-95 | the item is filtered out; when one line had the id the others stay in order; removing the last line also clears the coupon |
| ShoppingCart.Cart.ToggleCart | client/src/components/CartComponent.jsx:98-101 | the panel flips open/closed and any size selector closes |
| ShoppingCart.Cart.SetCouponCode | client/src/components/CartComponent.jsx:470 | typing changes the code only |
| ShoppingCart.Cart.ApplyCoupon | client/src/components/CartComponent.jsx:104-121 | the coupon becomes the pricing rule applied to the current subtotal; the code field stays editable only for an unknown code with lines selected |
| ShoppingCart.Cart.ClearCoupon | client/src/components/CartComponent.jsx:124-129 | code, discount, applied flag and error are all reset; Apply is disabled and the code field editable while lines are selected |
| ShoppingCart.Cart.ToggleSizeSelector | client/src/components/CartComponent.jsx:132-134 | pressing an item's size button opens its selector, or closes it when already open |
| ShoppingCart.Cart.UpdateSize | client/src/components/CartComponent.jsx:137-142 | only that item's size changes, and the selector closes |
| ShoppingCart.Cart.ToggleItemSelection | client/src/components/CartComponent.jsx:145-155 | only that item's selection flips, and the coupon is reset |
| ShoppingCart.Cart.HandleCheckout | client/src/components/CartComponent.jsx:158-182 | with nothing selected nothing happens; otherwise exactly the unselected lines stay, the coupon is reset, both checkout flags are off again and the checkout button is disabled |
| ShoppingCart.Cart.ContinueShopping | client/src/components/CartComponent.jsx:569-573 | the delivery screen and the panel close |
| ShoppingCart.Cart.ToggleSelectAll | client/src/components/CartComponent.jsx:194-205 | every line takes the given selection and the coupon is reset |
| ShoppingCart.Cart.ClickSelectAll | client/src/components/CartComponent.jsx:323 | the box selects all unless all are already selected, then deselects all |
| ShoppingCart.Cart.ToggleSizeFormat | client/src/components/CartComponent.jsx:222-224 | the size format switches to the other one |
| LegacyCart.WithoutId | client/src/Pages/CartComponent.jsx:69 | removal keeps exactly the lines with another id |
| LegacyCart.WithoutIdAppend | client/src/Pages/CartComponent.jsx:69 | removal distributes over concatenation, so the kept lines stay in order, each as often as before |
| LegacyCart.RemoveUniqueLine | client/src/Pages/CartComponent.jsx:69 | removing an id that only line k has gives the cart without line k, the rest in order |
| LegacyCart.AgreesWithFullySelectedCart | client/src/Pages/CartComponent.jsx:55 | the legacy subtotal and badge count equal those of the current cart with every line selected |
| LegacyCart.SubtotalNonNegative | client/src/Pages/CartComponent.jsx:55 | with positive quantities the subtotal is non-negative |
| LegacyCart.QuantityChangeShiftsSubtotal | client/src/Pages/CartComponent.jsx:60-65 | setting one line's quantity changes the subtotal by price times the change |
| LegacyCart.UntouchedSubtotal | client/src/Pages/CartComponent.jsx:60-65 | updating an id not in the cart changes nothing |
| LegacyCart.Cart.constructor | client/src/Pages/CartComponent.jsx:45-52 | initial items, closed, no coupon |
| LegacyCart.Cart.UpdateQuantity | client/src/Pages/CartComponent.jsx:60-65 | quantities below one are ignored; otherwise that line's quantity is set |
| LegacyCart.Cart.RemoveItem | client/src/Pages/CartComponent.jsx:68-78 | the line is filtered out; when one line had the id the others stay in order; removing the last line clears the coupon |
| LegacyCart.Cart.ToggleCart | client/src/Pages/CartComponent.jsx:81-83 | the panel flips open/closed |
| LegacyCart.Cart.SetCouponCode | client/src/Pages/CartComponent.jsx:304 | typing changes the code only |
| LegacyCart.Cart.ApplyCoupon | client/src/Pages/CartComponent.jsx:86-103 | the coupon becomes the pricing rule applied to the whole cart's subtotal; the code field stays editable only for an unknown code |
| LegacyCart.Cart.ClearCoupon | client/src/Pages/CartComponent.jsx:106-111 | the coupon is reset; Apply is disabled and the code field editable |
| LegacyCart.Cart.HandleCheckout | client/src/Pages/CartComponent.jsx:114-115 | checkout starts and the checkout button is disabled |
| LegacyCart.Cart.DeliveryStarted | client/src/Pages/CartComponent.jsx:118-120 | the delivery animation shows |
| LegacyCart.Cart.DeliveryFinished | client/src/Pages/CartComponent.jsx:122-126 | the animation ends and checkout is over |
| LegacyCart.Cart.ContinueShopping | client/src/Pages/CartComponent.jsx:403-408 | the panel closes and the cart is emptied |
| ErrorMap.RecordLookup | client/src/Authentication/AuthPage.jsx:47-96 | recording an error for a field changes only that field's entry, and only when there is an error |
| ErrorMap.EmptyIffNoKeys | client/src/Authentication/AuthPage.jsx:94-95 | `Object.keys(errors).length === 0` holds exactly for the empty error object |
| Auth.Set | client/src/Authentication/AuthPage.jsx:37-45 | a change sets one field and leaves the others |
| Auth.ValidEmailContainsSuffix | client/src/Authentication/AuthPage.jsx:34 | an address the Gmail pattern accepts contains "@gmail.com" |
| Auth.MobileHasNoSuffix | client/src/Authentication/AuthPage.jsx:35-56 | a ten-digit mobile number never looks like an email, so the two sign-in branches are exclusive |
| Auth.FormErrorsPerField | client/src/Authentication/AuthPage.jsx:47-96 | the error object holds, field by field, exactly the message that field's rule gives |
| Auth.NoErrorsIffEveryFieldPasses | client/src/Authentication/AuthPage.jsx:94-95 | validation succeeds exactly when no field has an error |
| Auth.SignInReportsOnlyIdentifierAndPassword | client/src/Authentication/AuthPage.jsx:51-67 | sign-in never reports the name or mobile fields |
| Auth.SignInAcceptsExactly | client/src/Authentication/AuthPage.jsx:51-67 | sign-in passes exactly for a Gmail address or a ten-digit mobile number starting with 6-9, with a password of any non-zero length |
| Auth.SignUpAcceptsExactly | client/src/Authentication/AuthPage.jsx:70-92 | sign-up passes exactly for a non-blank name, a valid mobile number, a Gmail address and a password of at least six characters |
| Auth.SignInErrorsAssembled | client/src/Authentication/AuthPage.jsx:51-67 | the sign-in error object is built from the identifier and password rules only |
| Auth.SignUpErrorsAssembled | client/src/Authentication/AuthPage.jsx:70-92 | the sign-up error object is built from the four field rules |
| Auth.CollectSignInErrors | client/src/Authentication/AuthPage.jsx:51-67 | the step-by-step sign-in checks build exactly the specified error object |
| Auth.CollectSignUpErrors | client/src/Authentication/AuthPage.jsx:70-92 | the step-by-step sign-up checks build exactly the specified error object |
| Auth.Validate | client/src/Authentication/AuthPage.jsx:47-96 | returns the error object of the current mode, and success exactly when it is empty |
| Auth.AuthPage.constructor | client/src/Authentication/AuthPage.jsx:8-18 | sign-in mode, empty form, no errors, no modal |
| Auth.AuthPage.ToggleAuthMode | client/src/Authentication/AuthPage.jsx:21-31 | the mode flips, and the form and errors are cleared |
| Auth.AuthPage.HandleChange | client/src/Authentication/AuthPage.jsx:37-45 | one field changes; a recorded error for it is blanked, other errors are kept |
| Auth.AuthPage.ValidateForm | client/src/Authentication/AuthPage.jsx:47-96 | the errors become the mode's error object; the result says whether it is empty |
| Auth.AuthPage.HandleSubmit | client/src/Authentication/AuthPage.jsx:98-112 | a valid form shows the mode's success message and clears the form; an invalid one only shows its errors |
| Auth.AuthPage.Succeed | client/src/Authentication/AuthPage.jsx:102-110 | a successful submission opens the modal with the mode's message and empties the form |
| Auth.AuthPage.CloseModal | client/src/Authentication/AuthPage.jsx:115-117 | the modal closes |
| Contact.Set | client/src/Pages/Contact/ContactForm.jsx:40-48 | a change sets one field and keeps the others and the country code |
| Contact.ResetKeepsTrailingSpace | client/src/Pages/Contact/ContactForm.jsx:147-156 | the reset form differs from the initial one: its country code carries a trailing space and is not one of the listed codes |
| Contact.GmailAddressIsContactEmail | client/src/Pages/Contact/ContactForm.jsx:75-79 | every address the sign-in page accepts is accepted by the contact form's email rule |
| Contact.ContactEmailHasNoWhitespace | client/src/Pages/Contact/ContactForm.jsx:75-79 | an accepted email contains no whitespace, so it is not blank |
| Contact.FormErrorsPerField | client/src/Pages/Contact/ContactForm.jsx:66-105 | the error object holds, field by field, exactly the message that field's rule gives |
| Contact.AcceptsExactly | client/src/Pages/Contact/ContactForm.jsx:66-105 | the form passes exactly for a non-blank name and query, a well-formed email and a number the phone check accepts |
| Contact.ErrorsAssembled | client/src/Pages/Contact/ContactForm.jsx:66-105 | the error object is built from the four field rules |
| Contact.Validate | client/src/Pages/Contact/ContactForm.jsx:66-105 | the step-by-step checks build exactly the specified error object; success exactly when it is empty |
| Contact.ContactForm.constructor | client/src/Pages/Contact/ContactForm.jsx:14-20 | the initial form, no errors, nothing loading or shown |
| Contact.ContactForm.CloseModal | client/src/Pages/Contact/ContactForm.jsx:34-36 | the success modal closes |
| Contact.ContactForm.HandleChange | client/src/Pages/Contact/ContactForm.jsx:40-48 | one field changes; an error shown for it is cleared, other errors are kept |
| Contact.ContactForm.HandleCountryCodeChange | client/src/Pages/Contact/ContactForm.jsx:51-53 | only the country code changes |
| Contact.ContactForm.ValidateForm | client/src/Pages/Contact/ContactForm.jsx:66-105 | the errors become the form's error object; the result says whether it is empty |
| Contact.ContactForm.ResetForm | client/src/Pages/Contact/ContactForm.jsx:147-156 | the form becomes the cleared form and the errors are emptied |
| Contact.ContactForm.Deliver | client/src/Pages/Contact/ContactForm.jsx:114-143 | loading ends; a delivered message shows the success modal and resets the form, a failed one changes nothing else |
| Contact.ContactForm.HandleSubmit | client/src/Pages/Contact/ContactForm.jsx:108-144 | the message is sent exactly when validation passes; an invalid form only shows its errors; a delivered message resets the form and shows the modal |
| Contact.ContactForm.OnFormSubmitted | client/src/Pages/Contact/ContactForm.jsx:159-164 | after a submission the form is reset and the flag cleared |
| Reviews.Precedes | client/src/Pages/Home/CustomerReviews.jsx:88-96 | a review precedes another when it has more stars, or as many and a smaller or equal id |
| Reviews.PrecedesIsTotalPreorder | client/src/Pages/Home/CustomerReviews.jsx:88-96 | the comparator is total and transitive |
| Reviews.SortReviewsOrdered | client/src/Pages/Home/CustomerReviews.jsx:88-96 | the sorted reviews are a permutation with stars non-increasing and ids ascending among equal stars |
| Reviews.SortReviewsIdempotent | client/src/Pages/Home/CustomerReviews.jsx:88-96 | sorting the sorted reviews changes nothing |
| Reviews.ItemsToShow | client/src/Pages/Home/CustomerReviews.jsx:153-157 | one card below 640 pixels, three from 1024, two in between |
| Reviews.ItemsToShowMonotone | client/src/Pages/Home/CustomerReviews.jsx:153-157 | a wider window never shows fewer cards |
| Reviews.TotalSlides | client/src/Pages/Home/CustomerReviews.jsx:160 | the slide count is the least that covers all ten reviews |
| Reviews.TotalSlidesByWidth | client/src/Pages/Home/CustomerReviews.jsx:153-160 | ten slides on mobile, five on tablets, four on desktops |
| Reviews.SlidesCoverSortedReviews | client/src/Pages/Home/CustomerReviews.jsx:160-223 | each slide shows one to three sorted reviews and the slides together show them all, in order |
| Reviews.StaleIndexAfterResize | client/src/Pages/Home/CustomerReviews.jsx:160-223 | after widening from mobile, slide 9 is out of range: it shows nothing and "next" goes to 10 |
| Reviews.ReviewCarousel.constructor | client/src/Pages/Home/CustomerReviews.jsx:88-141 | the carousel holds the sorted reviews, starts on slide 0 and remembers the width; the first render's listener and interval capture its slide count |
| Reviews.ReviewCarousel.Rearm | client/src/Pages/Home/CustomerReviews.jsx:199-219 | the keyboard listener and the interval capture the current slide count exactly when the index changed, and keep the old one otherwise |
| Reviews.ReviewCarousel.GoToNextSlide | client/src/Pages/Home/CustomerReviews.jsx:163-167 | next with wrap-around over the current slide count, staying in range; the listeners are re-armed if the index moved |
| Reviews.ReviewCarousel.GoToPrevSlide | client/src/Pages/Home/CustomerReviews.jsx:169-173 | previous with wrap-around over the current slide count, staying in range; the listeners are re-armed if the index moved |
| Reviews.ReviewCarousel.GoToSlide | client/src/Pages/Home/CustomerReviews.jsx:175-177 | the dot sets the index; the listeners are re-armed if it moved |
| Reviews.ReviewCarousel.HandleKeyDown | client/src/Pages/Home/CustomerReviews.jsx:198-210 | the arrow keys step with wrap-around over the captured slide count, other keys do nothing; in range with a current count they stay in range |
| Reviews.ReviewCarousel.IntervalTick | client/src/Pages/Home/CustomerReviews.jsx:212-219 | the ten-second tick steps "next" over the captured slide count; in range with a current count it stays in range |
| Reviews.ReviewCarousel.HandleTouchStart | client/src/Pages/Home/CustomerReviews.jsx:180-182 | the start point is recorded |
| Reviews.ReviewCarousel.HandleTouchMove | client/src/Pages/Home/CustomerReviews.jsx:184-186 | the current point is recorded |
| Reviews.ReviewCarousel.HandleTouchEnd | client/src/Pages/Home/CustomerReviews.jsx:188-196 | a drag of more than 100 pixels moves one slide with wrap-around over the current slide count; a shorter drag changes nothing |
| Reviews.ReviewCarousel.HandleResize | client/src/Pages/Home/CustomerReviews.jsx:141-150 | the width is recorded; the index and the captured slide count are kept |
| Reviews.ReviewCarousel.Visible | client/src/Pages/Home/CustomerReviews.jsx:222-223 | on an in-range slide one to three reviews are shown |
| Reviews.StaleTickAfterWidening | client/src/Pages/Home/CustomerReviews.jsx:160-219 | ten reviews, slide 3 on a phone, widened to four slides: the interval's first tick lands on 4 and the second on 5, both past the last slide |
| BestSellers.LexLeTotal | client/src/Pages/Best-Sellers/BestSeller.jsx:93-98 | any two names are ordered one way or the other |
| BestSellers.LexLeTransitive | client/src/Pages/Best-Sellers/BestSeller.jsx:93-98 | the name order is transitive |
| BestSellers.LexLeAntisymmetric | client/src/Pages/Best-Sellers/BestSeller.jsx:93-98 | names ordered both ways are equal |
| BestSellers.PriceOrdersArePreorders | client/src/Pages/Best-Sellers/BestSeller.jsx:87-92 | both price comparators are total preorders |
| BestSellers.NameOrdersArePreorders | client/src/Pages/Best-Sellers/BestSeller.jsx:93-98 | both name comparators are total preorders |
| BestSellers.SortProducts | client/src/Pages/Best-Sellers/BestSeller.jsx:79-103 | the list is a permutation of the input; an option without a sort rule leaves it as it is |
| BestSellers.UnsortedOptionsKeepOrder | client/src/Pages/Best-Sellers/BestSeller.jsx:51-58 | "Best Selling" and the two date entries of the drop-down have no case in the switch and leave the list as it is |
| BestSellers.SortProductsOrdered | client/src/Pages/Best-Sellers/BestSeller.jsx:79-103 | each of the four sort options yields a list ordered by its key |
| BestSellers.SortProductsIdempotent | client/src/Pages/Best-Sellers/BestSeller.jsx:79-103 | choosing the same option again changes nothing |
| BestSellers.PriceSortKeepsTiesInOrder | client/src/Pages/Best-Sellers/BestSeller.jsx:85-90 | both price orders keep equally priced products in the order they had |
| BestSellers.PriceTiesAreEqualPrices | client/src/Pages/Best-Sellers/BestSeller.jsx:85-90 | under either price comparator two products tie exactly when their prices are equal |
| BestSellers.BestSellerPage.constructor | client/src/Pages/Best-Sellers/BestSeller.jsx:6-48 | "Best selling", both panels closed, the six products in their initial order |
| BestSellers.BestSellerPage.HandleSortChange | client/src/Pages/Best-Sellers/BestSeller.jsx:79-103 | the option is set, the dropdown closes and the products are re-sorted from their current order |
| BestSellers.BestSellerPage.ToggleSortOptions | client/src/Pages/Best-Sellers/BestSeller.jsx:188 | the sort dropdown flips |
| BestSellers.BestSellerPage.ToggleFilters | client/src/Pages/Best-Sellers/BestSeller.jsx:143 | the filter panel flips |
| BestSellers.BestSellerPage.HandleClickOutside | client/src/Pages/Best-Sellers/BestSeller.jsx:105-116 | a press outside closes both panels |
| ProductCarousel.ItemsPerSlide | client/src/components/ProductCarouselSection.jsx:11-19 | one to four cards by width, each count exactly on its band: one below 768, two from 768 below 1024, three from 1024 below 1280, four from 1280; four when there is no window |
| ProductCarousel.ItemsPerSlideMonotone | client/src/components/ProductCarouselSection.jsx:11-19 | a wider window never shows fewer cards |
| ProductCarousel.SlideItemsIsSlide | client/src/components/ProductCarouselSection.jsx:104-115 | the section's slice is the shared slide of k items at i·k |
| ProductCarousel.SlidesPartitionProducts | client/src/components/ProductCarouselSection.jsx:32-115 | each slide holds one to k products and the slides together show every product in order |
| ProductCarousel.NoProductsNoRange | client/src/components/ProductCarouselSection.jsx:32-40 | with no products there are no slides, and the arrows leave the range (next gives 1, previous −1) |
| ProductCarousel.ProductCarouselSection.constructor | client/src/components/ProductCarouselSection.jsx:6-21 | slide 0, cards per slide from the width |
| ProductCarousel.ProductCarouselSection.HandlePrev | client/src/components/ProductCarouselSection.jsx:34-36 | previous with wrap-around, staying in range |
| ProductCarousel.ProductCarouselSection.HandleNext | client/src/components/ProductCarouselSection.jsx:38-40 | next with wrap-around, staying in range |
| ProductCarousel.ProductCarouselSection.GoToSlide | client/src/components/ProductCarouselSection.jsx:144-155 | an indicator dot shows exactly its slide, which is in range |
| ProductCarousel.ProductCarouselSection.HandleTouchStart | client/src/components/ProductCarouselSection.jsx:58-60 | the start point is recorded |
| ProductCarousel.ProductCarouselSection.HandleTouchEnd | client/src/components/ProductCarouselSection.jsx:62-73 | a drag of more than 50 pixels moves one slide with wrap-around |
| ProductCarousel.ProductCarouselSection.HandleResize | client/src/components/ProductCarouselSection.jsx:23-30 | the cards per slide follow the width; the index is kept |
| Recommendations.ItemsPerView | client/src/components/YouMayAlsoLikeSection.jsx:99-107 | one card below 640 pixels, four from 1024, two in between |
| Recommendations.MaxIndex | client/src/components/YouMayAlsoLikeSection.jsx:91-96 | the last reachable index is `max(0, n − k)` |
| Recommendations.ScrollPrev | client/src/components/YouMayAlsoLikeSection.jsx:85-89 | one step back unless at 0 |
| Recommendations.ScrollNext | client/src/components/YouMayAlsoLikeSection.jsx:91-96 | one step forward unless at the last index |
| Recommendations.ScrollKeepsRange | client/src/components/YouMayAlsoLikeSection.jsx:85-96 | both arrows keep the index in `[0, max(0, n − k)]` |
| Recommendations.ArrowsDoNotWrap | client/src/components/YouMayAlsoLikeSection.jsx:85-96 | at either end the arrow toward it does nothing |
| Recommendations.DisabledExactlyWhenStuck | client/src/components/YouMayAlsoLikeSection.jsx:110-135 | inside the range an arrow is disabled exactly when pressing it would not move the index |
| Recommendations.DotCount | client/src/components/YouMayAlsoLikeSection.jsx:194-201 | a non-empty strip has at least one dot |
| Recommendations.DotsStayInScrollRange | client/src/components/YouMayAlsoLikeSection.jsx:194-201 | every dot jumps to an index the arrows could reach |
| Recommendations.YouMayAlsoLike.constructor | client/src/components/YouMayAlsoLikeSection.jsx:13-62 | six recommendations, index 0 |
| Recommendations.YouMayAlsoLike.DoScrollPrev | client/src/components/YouMayAlsoLikeSection.jsx:85-89 | the index takes one step back and stays in range |
| Recommendations.YouMayAlsoLike.DoScrollNext | client/src/components/YouMayAlsoLikeSection.jsx:91-96 | the index takes one step forward and stays in range |
| Recommendations.YouMayAlsoLike.GoToDot | client/src/components/YouMayAlsoLikeSection.jsx:194-201 | a dot sets the index to a reachable one |
| Recommendations.YouMayAlsoLike.HandleResize | client/src/components/YouMayAlsoLikeSection.jsx:64-74 | the width is recorded |
| ProductView.CalculateTotalPrice | client/src/components/ProductViewComponent.jsx:76-79 | no total without a product or with a missing or zero price; otherwise price times quantity |
| ProductView.TotalTracksQuantity | client/src/components/ProductViewComponent.jsx:71-79 | each press of the plus button adds one unit price to the total |
| ProductView.PlaceholderHasNoTotal | client/src/components/ProductViewComponent.jsx:37-62 | the loaded placeholder has no price, so no total is shown |
| ProductView.ProductPage.constructor | client/src/components/ProductViewComponent.jsx:14-24 | loading, details tab, quantity 1, first image |
| ProductView.ProductPage.ProductLoaded | client/src/components/ProductViewComponent.jsx:37-62 | the product arrives and loading stops |
| ProductView.ProductPage.DecreaseQuantity | client/src/components/ProductViewComponent.jsx:65-69 | one less, never below one; the quantity is unchanged exactly when the minus button was disabled |
| ProductView.ProductPage.IncreaseQuantity | client/src/components/ProductViewComponent.jsx:71-73 | one more |
| ProductView.ProductPage.HandleAddToCart | client/src/components/ProductViewComponent.jsx:82-96 | the animation and the modal show |
| ProductView.ProductPage.AnimationEnded | client/src/components/ProductViewComponent.jsx:93-95 | the animation hides |
| ProductView.ProductPage.HandleBuyNow | client/src/components/ProductViewComponent.jsx:99-104 | buying now adds to the cart |
| ProductView.ProductPage.HandleThumbnailClick | client/src/components/ProductViewComponent.jsx:107-109 | the clicked image becomes the active one |
| ProductView.ProductPage.HandleNextThumbnail | client/src/components/ProductViewComponent.jsx:112-115 | next image with wrap-around, in range; nothing before a product loads |
| ProductView.ProductPage.HandlePrevThumbnail | client/src/components/ProductViewComponent.jsx:117-120 | previous image with wrap-around, in range; nothing before a product loads |
| ProductView.ProductPage.HandleTabChange | client/src/components/ProductViewComponent.jsx:123-125 | the tab is set |
| ProductView.ProductPage.CloseAddToCartModal | client/src/components/ProductViewComponent.jsx:128-130 | the modal closes |
| Banner.Indicator | client/src/Pages/Home/BannerCarousel.jsx:170 | "k / 4" shows a position between 1 and 4 for an in-range slide |
| Banner.SwipeTestsExclusive | client/src/Pages/Home/BannerCarousel.jsx:91-101 | the two independent swipe tests can never both fire |
| Banner.BannerCarousel.constructor | client/src/Pages/Home/BannerCarousel.jsx:14-17 | slide 0, desktop layout |
| Banner.BannerCarousel.PrevSlide | client/src/Pages/Home/BannerCarousel.jsx:54-56 | previous of four with wrap-around, staying in range |
| Banner.BannerCarousel.NextSlide | client/src/Pages/Home/BannerCarousel.jsx:59-61 | next of four with wrap-around, staying in range |
| Banner.BannerCarousel.AutoAdvance | client/src/Pages/Home/BannerCarousel.jsx:45-51 | the eight-second timer, re-armed on every slide change, moves to the next slide with wrap-around |
| Banner.BannerCarousel.GoToSlide | client/src/Pages/Home/BannerCarousel.jsx:178 | a dot selects its slide |
| Banner.BannerCarousel.CheckScreenSize | client/src/Pages/Home/BannerCarousel.jsx:29-42 | the layout is mobile exactly below 768 pixels |
| Banner.BannerCarousel.HandleTouchStart | client/src/Pages/Home/BannerCarousel.jsx:83-85 | the start point is recorded |
| Banner.BannerCarousel.HandleTouchMove | client/src/Pages/Home/BannerCarousel.jsx:87-89 | the current point is recorded |
| Banner.BannerCarousel.HandleTouchEnd | client/src/Pages/Home/BannerCarousel.jsx:91-101 | a drag of more than 100 pixels moves one slide with wrap-around |
| Trending.TrendingSection.constructor | client/src/Pages/Home/HomeSection2.jsx:14-49 | the collections given, or the five defaults when none are passed; index 0 |
| Trending.TrendingSection.HandlePrev | client/src/Pages/Home/HomeSection2.jsx:63-65 | previous collection with wrap-around, staying in range |
| Trending.TrendingSection.HandleNext | client/src/Pages/Home/HomeSection2.jsx:67-69 | next collection with wrap-around, staying in range |
| Trending.TrendingSection.GoTo | client/src/Pages/Home/HomeSection2.jsx:164 | a dot selects its collection |
| Trending.TrendingSection.HandleTouchStart | client/src/Pages/Home/HomeSection2.jsx:71-73 | the start point is recorded |
| Trending.TrendingSection.HandleTouchEnd | client/src/Pages/Home/HomeSection2.jsx:75-86 | a drag of more than 50 pixels moves one collection with wrap-around; a shorter one changes nothing |
| SiteHeader.IsActive | client/src/components/Header.jsx:79-87 | "/" is active only on the home page; any other link is active on every path it is a prefix of |
| SiteHeader.SubPagesKeepParentActive | client/src/components/Header.jsx:79-87 | pages below a section keep its link active |
| SiteHeader.HomeActiveOnlyAtHome | client/src/components/Header.jsx:80-82 | the home link is active nowhere else |
| SiteHeader.PrefixIsNotSegmentAware | client/src/components/Header.jsx:84-86 | the test is on characters, so "/sarees" is active on "/sarees-x" |
| SiteHeader.Toggle | client/src/components/Header.jsx:101-103 | pressing a category closes its open drawer, or shows that category; the same rule serves the drawer's sub-menu headers (CategoryDrawer.jsx:180) |
| SiteHeader.ToggleTwiceRestores | client/src/components/Header.jsx:101-103 | from closed or from that category, two presses restore the drawer |
| SiteHeader.ToggleTwiceFromOtherCategory | client/src/components/Header.jsx:101-103 | with another category open, two presses close the drawer |
| SiteHeader.OnlySareesHighlightedUnderSarees | client/src/components/Header.jsx:79-98 | under "/sarees" with no drawer open, SAREES is the only highlighted link of the bar |
| SiteHeader.Highlighted | client/src/components/Header.jsx:182-185 | a drawer button is highlighted exactly when its drawer is open or its path is active; other links exactly when active |
| SiteHeader.Header.constructor | client/src/components/Header.jsx:17-23 | menu, search and drawer closed |
| SiteHeader.Header.HandleResize | client/src/components/Header.jsx:36-39 | the width is recorded; mobile exactly below 768 |
| SiteHeader.Header.RouteChanged | client/src/components/Header.jsx:72-76 | a navigation closes the menu, the search box and the drawer |
| SiteHeader.Header.ToggleCategoryDrawer | client/src/components/Header.jsx:101-103 | the drawer follows the toggle rule |
| SiteHeader.Header.MobileCategoryClick | client/src/components/Header.jsx:240-244 | the drawer toggles and the mobile menu closes |
| SiteHeader.Header.ToggleSearch | client/src/components/Header.jsx:143 | the search box flips |
| SiteHeader.Header.ToggleMobileMenu | client/src/components/Header.jsx:166 | the mobile menu flips |
| SiteHeader.Header.CloseMobileMenu | client/src/components/Header.jsx:219-223 | the mobile menu closes |
| SiteHeader.Header.HandleClickOutside | client/src/components/Header.jsx:53-64 | a press outside the menu closes it, and one outside the search closes it |
| Drawer.FindCategoryId | client/src/components/CategoryDrawer.jsx:118-122 | no id exactly when no category has that name; otherwise the id of the first category with that name |
| Drawer.GetActiveCategoryId | client/src/components/CategoryDrawer.jsx:118-122 | "SUIT SETS" and "SAREES" map to their ids; a closed drawer or another name has none |
| Drawer.ToggleSubcategoryTwice | client/src/components/CategoryDrawer.jsx:180 | two presses on a header from collapsed leave it collapsed |
| Drawer.CategoryDrawer.constructor | client/src/components/CategoryDrawer.jsx:12-17 | nothing expanded, first render pending, the current layout remembered |
| Drawer.CategoryDrawer.Close | client/src/components/CategoryDrawer.jsx:143-146 | the drawer and the sub-menu close |
| Drawer.CategoryDrawer.HandleClickOutside | client/src/components/CategoryDrawer.jsx:37-64 | a press away from the drawer and its buttons closes an open drawer; otherwise nothing changes |
| Drawer.CategoryDrawer.SelectCategory | client/src/components/CategoryDrawer.jsx:154-157 | a tab shows its category with every sub-menu collapsed |
| Drawer.CategoryDrawer.ToggleSubcategoryHeader | client/src/components/CategoryDrawer.jsx:180 | the expanded sub-menu follows the toggle rule |
| Drawer.CategoryDrawer.OpenCategoryChanged | client/src/components/CategoryDrawer.jsx:67-69 | a new category collapses every sub-menu |
| Drawer.CategoryDrawer.LayoutEffect | client/src/components/CategoryDrawer.jsx:20-34 | the first run only clears the flag; later runs close an open drawer when the layout switched, then remember the layout |

## Left out

- Timers are collapsed into the state changes they lead to. The current cart's checkout is one step: it removes the selected lines, and its two delayed steps run at once. The legacy cart keeps them as `DeliveryStarted` and `DeliveryFinished`. The banner's eight-second timeout, re-armed after every slide change, is the `AutoAdvance` method. The reviews' ten-second interval is `IntervalTick`; when it fires is not modelled, only the slide count it steps with. The add-to-cart animation's two-second timer is `AnimationEnded`.
- Auth.AuthPage.ToggleAuthMode: the 500 ms fade is collapsed. The mode flips at once instead of reading a possibly stale `isSignIn` inside the timer callback.
- ShoppingCart.Cart.HandleCheckout: the source filters the `cartItems` captured when the button was pressed. Changes made during the 500 ms and 3000 ms delays, before the filter runs in the inner callback, are not modelled.
- DOM events are inputs, not listeners:
  - a press outside a component is a boolean saying where it landed;
  - a resize is the new width;
  - a key press is the `Key` it names, handed to `HandleKeyDown`;
  - the header-height measurement, scrolling and focus/blur handlers of the phone field are not modelled.
- The phone-number library (`libphonenumber-js`) is the function parameter `phoneValid`. The web request of the contact form is the boolean `delivered`. The product fetch is the `ProductLoaded` method with the product as its argument.
- Floating point: `Math.round(subtotal * 0.1)` is computed exactly as `(subtotal·10 + 50) div 100`. This agrees with the source wherever the float product is exact.
- BestSellers.LexLe: `localeCompare` is replaced by code-point order on the names.
- Price formatting (`toLocaleString`, `Intl.NumberFormat`) is left out, as are the `console.log` calls and all rendering.
- Strings are sequences of characters. UTF-16 code units and Unicode case mapping are not modelled. Case mapping is ASCII-only, which covers the coupon codes and product names.
- Reviews.ReviewCarousel.constructor: sorts whatever review list it is given. The module's `ReviewsData` holds the source's ten reviews and is what the page passes.
- The category drawer's subcategory tree is not modelled. It is static link data, and links inside the drawer only close it (`Close`). The AOS animations and the image-loading state are not modelled either.
- The product page's redirects are not written in the source: `handleBuyNow` (client/src/components/ProductViewComponent.jsx:99-104) only adds to the cart and logs, and the modal's "Go to Cart" button (client/src/components/ProductViewComponent.jsx:457-461) only closes the modal. The model has only those effects.
