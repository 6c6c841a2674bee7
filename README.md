# Taxi booking: nearest-driver selection and booking-form validation

This project models the logic of a one-screen Android ride-booking app. The app
follows the user's live location and lists a few drivers. It picks the nearest
driver when that driver is strictly within 1 km, and then lets the user book
that driver. The booking screen shows an error flag beside every text field
whose value has the wrong shape.

- `Selection` (`selection.dfy`) holds the driver selection. Kotlin's
  `minByOrNull` becomes a scan over the list that keeps the first of several
  equal minima. A driver is kept only if its distance is strictly below
  `NearbyKm` (1.0 km). The module also holds the "Book Now" rules: the button
  is enabled exactly when a driver is selected, and its route is
  `screen_B?driverName=` followed by that driver's name.
- `Tracking` (`tracking.dfy`) holds the screen's state as a class.
  `MainScreen` keeps the activity's `currentLocation` and the screen's
  `nearbyDriver`. `OnLocationResult` overwrites the location once for each
  location in a batch, so the last one wins. It then reruns the screen's effect
  if the location changed. `AfterBatch` is the reference definition that the
  loop is proved against.
- `BookingForm` (`booking_form.dfy`) holds the `isError` predicate of each
  of the fifteen text fields.
- `Wrappers` (`wrappers.dfy`) holds `Option`, which stands for Kotlin's
  nullable `Driver?`.

The distance is the `calculateDistance` function that the screen receives as
a parameter. Here it is a function parameter `(LatLng, LatLng) -> real`, so
it is deterministic by construction. Nothing else is assumed about it. It need
not be symmetric, non-negative or geodesic.

The form uses three character classes, and the model takes all three as given
functions of the platform (`CharClasses`):
- Kotlin's `Char.isDigit()`;
- Kotlin's `Char.isWhitespace()`;
- the class that the platform's regular-expression engine gives `\d`.

The only assumption made about them is that the ASCII digits '0'..'9' belong to
both digit classes (`ExtendsAscii`). One engine reads `\d` as ASCII only;
another reads it as Unicode decimal digits, the same class as `isDigit()`. The
model proves what the form does under each reading:
- `SameDigitClassMobileNo` covers the case where the two classes coincide.
- `DigitClassesDiffer` covers the case where `\d` is narrower.

## Model

| member | source | states |
|---|---|---|
| `Selection.MinScan` | app/src/main/java/com/example/taxibooking/MainActivity.kt:171 | The scan that `minByOrNull` performs. If the candidate so far is the first least element of the prefix, the result is the first least element of the whole list (least value, and strictly smaller than every earlier element). |
| `Selection.FirstMinUnique` | app/src/main/java/com/example/taxibooking/MainActivity.kt:171 | There is at most one "first least" position, so the tie-break is well defined. |
| `Selection.MinByOrNull` | app/src/main/java/com/example/taxibooking/MainActivity.kt:171 | The result is null exactly when the list is empty. Otherwise some first least position exists, and the result is the element there. It is also the element at every first least position, which is unique. |
| `Selection.NearestDriver` | app/src/main/java/com/example/taxibooking/MainActivity.kt:170-173 | An empty list yields none. A selected driver is in the list and strictly closer than 1.0 km, and no listed driver is closer. The result is none exactly when every driver is at 1.0 km or more, so a driver at exactly 1.0 km is not bookable. |
| `Selection.NearestDriverIsFirstMinimum` | app/src/main/java/com/example/taxibooking/MainActivity.kt:171-172 | If drivers[k] is the first driver at least distance, the result is drivers[k] when its distance is below 1.0, and none otherwise. A later driver at the same distance is never chosen. |
| `Selection.SingleDriver` | app/src/main/java/com/example/taxibooking/MainActivity.kt:171-172 | With one driver, that driver is selected exactly when it is strictly under the threshold. |
| `Selection.BookNowRoute` | app/src/main/java/com/example/taxibooking/MainActivity.kt:211 | Every route the button builds starts with `screen_B?driverName=`. With no driver selected, the `?: ""` fallback leaves the bare prefix (`BookNowRouteNamesFirstNearest`). |
| `Selection.BookNowRouteRoundTrip` | app/src/main/java/com/example/taxibooking/MainActivity.kt:211 | The route built for a selected driver reads back as exactly that driver's name. The helper `RouteDriverName` strips the prefix, and it returns a name only when the route is that prefix followed by the name. |
| `Selection.BookNowRouteInjective` | app/src/main/java/com/example/taxibooking/MainActivity.kt:211 | Drivers with different names get different routes. |
| `Selection.BookNowEnabledIff` | app/src/main/java/com/example/taxibooking/MainActivity.kt:170-212 | For every driver list, the empty one included, "Book Now" (`BookNowEnabled`, line 212: enabled iff `nearbyDriver != null`) is enabled after a selection exactly when some driver is strictly within 1.0 km. |
| `Selection.BookNowRouteNamesFirstNearest` | app/src/main/java/com/example/taxibooking/MainActivity.kt:171-211 | If drivers[k] is the first driver at least distance, the route is the prefix plus drivers[k]'s name when that driver is strictly within 1.0 km. Otherwise it is the bare prefix. |
| `Selection.DistanceFrom` | app/src/main/java/com/example/taxibooking/MainActivity.kt:171 | The selector lambda passed to `minByOrNull`. A driver's value depends only on its position, never on its name. |
| `Tracking.AfterBatch` | app/src/main/java/com/example/taxibooking/MainActivity.kt:134-136 | A reference definition of the loop: each location of the batch in turn overwrites the current one. The result is either the starting location or one of the batch's locations. |
| `Tracking.AfterBatchIsLast` | app/src/main/java/com/example/taxibooking/MainActivity.kt:134-136 | After a batch is applied, the current location is the batch's last location. An empty batch leaves it unchanged. |
| `Tracking.AfterBatchConcat` | app/src/main/java/com/example/taxibooking/MainActivity.kt:132-137 | Two batches delivered one after the other leave the same location as a single batch holding both. |
| `Tracking.MainScreen.constructor` | app/src/main/java/com/example/taxibooking/MainActivity.kt:168-173 | The location starts at (0.0, 0.0), as declared at line 54. After the first run of the effect, `nearbyDriver` is the selection for that location. |
| `Tracking.MainScreen.RefreshNearbyDriver` | app/src/main/java/com/example/taxibooking/MainActivity.kt:170-173 | The effect sets `nearbyDriver` to the selection for the current location and changes nothing else. |
| `Tracking.MainScreen.OnLocationResult` | app/src/main/java/com/example/taxibooking/MainActivity.kt:133-137 | The new location equals `AfterBatch` of the old one, so the last location of the batch wins. An empty batch changes neither field. Afterwards `Valid()` holds, so `nearbyDriver` is the selection for the new location, and "Book Now" is enabled exactly when some driver is strictly within 1.0 km of it. The body reruns the effect only when the location changed. |
| `BookingForm.All` | app/src/main/java/com/example/taxibooking/MainActivity.kt:329 | `all { }` holds exactly when the predicate holds of every character. |
| `BookingForm.IsBlank` | app/src/main/java/com/example/taxibooking/MainActivity.kt:315 | `isBlank()`, used for the name (line 315) and the destination (line 416): it holds exactly when every character is whitespace, and so it holds for the empty string. |
| `BookingForm.FieldError` | app/src/main/java/com/example/taxibooking/MainActivity.kt:315-492 | The fifteen `isError` expressions (lines 315, 329, 355-404 and 416, 443-492), one per field. Every field flags the empty value, so a fresh form shows every field in error. |
| `BookingForm.MatchesDigits` | app/src/main/java/com/example/taxibooking/MainActivity.kt:355 | A whole-string match of `\d{n}` holds exactly when the string has length n and every character is in the platform's `\d` class. |
| `BookingForm.RequiredFieldErrorIffBlank` | app/src/main/java/com/example/taxibooking/MainActivity.kt:312-323 | The name field is in error exactly when it is empty or all whitespace, and so is the destination field (lines 412-425). The empty value is always in error. |
| `BookingForm.MobileNoErrorIff` | app/src/main/java/com/example/taxibooking/MainActivity.kt:325-338 | The mobile number is in error exactly when its length is not 10 or some character is not a digit. |
| `BookingForm.AsciiMobileNoAccepted` | app/src/main/java/com/example/taxibooking/MainActivity.kt:329 | Ten ASCII digits are never flagged, on any platform that counts ASCII digits as digits. |
| `BookingForm.YearValidIff` | app/src/main/java/com/example/taxibooking/MainActivity.kt:350-357 | The trip year is valid exactly when it is four `\d` characters, and so is the booking year (line 443). |
| `BookingForm.TwoDigitValidIff` | app/src/main/java/com/example/taxibooking/MainActivity.kt:359-398 | Month, day, hour and minute are valid exactly when they are two `\d` characters. This holds for the trip fields and for the booking fields (lines 447-486). |
| `BookingForm.TwoDigitNoRangeCheck` | app/src/main/java/com/example/taxibooking/MainActivity.kt:364 | There is no range check, under either reading of `\d`: "13", "00", "99" and "60" pass. "", "1" and "123" fail. |
| `BookingForm.MeridiemValidIff` | app/src/main/java/com/example/taxibooking/MainActivity.kt:399-406 | An AM/PM field is valid exactly for "AM" or "PM", and the check is case-sensitive. This holds for both such fields (line 492). |
| `BookingForm.SameDigitClassMobileNo` | app/src/main/java/com/example/taxibooking/MainActivity.kt:329-355 | Where `\d` and `isDigit()` are the same class, the mobile check accepts exactly the values that match `\d{10}`. |
| `BookingForm.DigitClassesDiffer` | app/src/main/java/com/example/taxibooking/MainActivity.kt:329-355 | Where `\d` is narrower than `isDigit()`, take a platform digit outside `\d`. Ten copies of it pass the mobile check, but four copies fail the year check. |

## Left out

- The internals of `calculateDistance` (lines 147-157). It calls the platform's floating-point geodesic `Location.distanceTo` and divides by 1000. Here it is an arbitrary deterministic function to `real`.
- Double arithmetic: rounding and NaN are not modelled. Distances are reals, and `<` and `>` are the ordered comparisons of reals.
- Location-service setup and lifecycle (lines 56-64 and 124-145) are platform subscriptions. Only the callback body is modelled. `OnLocationResult` takes the batch as a parameter.
- Permission handling and toasts (lines 72-97 and 267-269) are platform interaction.
- The map, the camera, the markers and the circle (lines 221-271), and all Compose layout, are display only.
- The navigation host and its argument parsing with the "Unknown" fallback (lines 106-120) belong to the navigation library. `RouteDriverName` only states what the route carries. It does not model that parser, nor how names with '&' or '?' would be read back.
- The `"%.2f"` distance labels (line 199), the booking summary (lines 537-572) and the payment switch (lines 500-527) are display only.
- The hard-coded three-driver list (lines 99-103). The driver list is a parameter.
- Unicode character classes: `Char.isDigit()`, `Char.isWhitespace()` and the regular-expression class of `\d` are parameters (`CharClasses`), not tables of Unicode categories.
- Which reading of `\d` the app actually gets is not settled. A desktop JVM reads it as ASCII only; Android's ICU-based engine documents it as Unicode decimal digits. The model states the form under both readings. `DigitClassesDiffer` applies only where `\d` is narrower than `isDigit()`.
- String length: Kotlin's `length` counts UTF-16 code units, while a Dafny `string` counts Unicode scalar values. The two agree for text in the Basic Multilingual Plane. The mobile-number length check outside that plane is not modelled.
- Compose recomposition timing. The model runs the effect right after a batch, and only if the location changed. This matches a `LaunchedEffect` keyed on `currentLocation`, but cancellation of a running effect is not modelled.
