# Account logic of my-lms, modelled in Dafny

This project models the account logic of a small Django and React
learning-management app. It covers:

- the `User` and `Profile` models with their save-time defaults;
- the post-save signal handlers that create and re-save a user's profile;
- the unique and length constraints of the user table;
- the login token's extra claims;
- registration validation and account creation;
- the OTP generator and the password-reset request view;
- the frontend's authentication store.

The modules follow the source files:

| file | module | models |
|---|---|---|
| `wrappers.dfy` | `Wrappers` | `Option` and `Result` |
| `strings.dfy` | `Strings` | `str.split(sep)[0]`, digits, decimal rendering of a key |
| `userauths_models.dfy` | `UserAuths` | `backend/userauths/models.py` |
| `api_serializer.dfy` | `ApiSerializer` | `backend/api/serializer.py` |
| `api_views.dfy` | `ApiViews` | `backend/api/views.py` |
| `frontend_auth_store.dfy` | `FrontendAuth` | `frontend/src/store/auth.js` |

How the source maps onto the model:

- **The database is a `Store` object.** It has `users: seq<User>` (the row at position `k` has primary key `k + 1`, so keys are dense: the keys an auto-increment column hands out when no insert has failed) and `profiles: map<nat, Profile>` (keyed by the user's primary key, which is what the one-to-one link makes unique).
- **The store's invariant is `TablesValid`.** It says:
  - every user has exactly one profile;
  - emails are unique, and so are usernames;
  - every stored row is as its `save` left it;
  - on a length-enforcing backend, every value except the password digest fits its column.
- **Signal handlers are explicit steps.** `create_user_profile` and `save_user_profile` are the last steps of `Store.CreateUser` and `Store.SaveUser`.
- **Unique and length constraints are explicit checks** (`WriteError`). A unique violation is an `IntegrityError`. A value longer than its column is a `DataError`, but only when the store was built with `strictLengths`: PostgreSQL rejects such values, SQLite stores them anyway.
- **Foreign pieces are parameters.**
  - The random source of the OTP is `rand: nat -> Digit` (draw `i` is `rand(i)`).
  - Password hashing is `hash: string -> string`.
  - The password policy (`validate_password`) is `policy: string -> bool`.
  - The access token that `RefreshToken.for_user` issues for a primary key is `mint: nat -> string`.
  - The claims the JWT library puts in a token are the `base` map.
- **Records are values.** `User` and `Profile` are datatypes. Where Python assigns to an instance's attribute, the model updates a local record, which the store method then writes.

## The OTP width

The `otp` column is declared with `max_length=OTP_LENGTH`, which is 6 (`backend/userauths/models.py:11`, `:22`). But `generate_random_otp` produces 7 digits by default (`backend/api/views.py:24`), and the reset view uses that default. The model keeps both widths as written. `ApiViews.DefaultOtpOverflowsColumn` proves that the default OTP is one digit wider than the column. `ApiViews.PasswordResetEmailVerify` states what follows for each kind of backend:

- **Length-enforcing backend:** the save fails for every known user. The request ends in a server error (500) and nothing is written.
- **Backend that ignores lengths:** the 7-digit OTP is stored and the reset link is returned.

## Behaviour of the code worth noting

- **No reset-confirm endpoint.** The code has no endpoint that checks the OTP, sets the new password and clears the OTP, so the OTP written by the reset request is never cleared.
- **Blank usernames are possible.** `User.save` leaves the username blank for an email that is empty or starts with `@`, since the text before the first `@` is then empty; `UserAuths.UserSaveDefaultsNonBlank` gives the exact condition.
- **Username collisions end in a 500.** A new, unused email whose local part is already someone's username (`a@y.com` after `a@x.com`) fails on the username constraint (`UserAuths.CreateCollidesOnLocalPart`). No serializer validator covers the username, so the request ends in a server error.
- **No custom claims in the reset token.** The reset view mints its token with `RefreshToken.for_user`, so that token does not carry the three extra login claims that `get_token` adds.
- **Frontend logout calls a missing method.** `logout` in `frontend/src/utils/auth.js:59` calls `setAuthUser` on the store's state, but the store defines only `setUser`. That file is not part of this model. The model proves what `setUser(null)` does.

## Model

| member | source | states |
|---|---|---|
| `Strings.TakeUntil` | backend/userauths/models.py:36 | `split(sep)[0]` is the prefix of the input that holds no `sep` and is followed by `sep`, or is the whole input when `sep` does not occur |
| `Strings.SplitHeadUnique` | backend/userauths/models.py:36 | any string with those three properties is that split head, so the characterisation is exact |
| `Strings.NatToString` | backend/api/views.py:55 | the `uuid` text of the link is a non-empty digit string without leading zeros |
| `Strings.ParseNatToString` | backend/api/views.py:55 | reading the decimal text of a primary key back gives the key |
| `Strings.DigitChar` | backend/api/views.py:25 | `str` of a draw in 0..9 is a digit character whose value is the draw |
| `UserAuths.LocalPart` | backend/userauths/models.py:36 | `email.split('@')[0]` is the prefix of the email before its first `@`, or the whole email when it has none |
| `UserAuths.UserSaveDefaults` | backend/userauths/models.py:34-39 | `User.save` gives a blank full name and a blank username the email's local part and changes no other field |
| `UserAuths.UserSaveDefaultsFullName` | backend/userauths/models.py:35-36 | a blank full name becomes the email text before its first `@`, or the whole email without `@` |
| `UserAuths.UserSaveDefaultsUsername` | backend/userauths/models.py:37-38 | a blank username becomes that same local part |
| `UserAuths.UserSaveDefaultsKeeps` | backend/userauths/models.py:34-39 | `User.save` keeps a non-blank full name and username and never changes email, password or OTP |
| `UserAuths.UserSaveDefaultsIdempotent` | backend/userauths/models.py:34-39 | a second save fills in nothing more |
| `UserAuths.UserSaveDefaultsNonBlank` | backend/userauths/models.py:35-38 | both names are non-blank after save if and only if both were set or the email is non-empty and does not start with `@` |
| `UserAuths.ProfileSaveDefaults` | backend/userauths/models.py:61-64 | `Profile.save` gives a blank full name the user's username and changes no other field |
| `UserAuths.NewProfile` | backend/userauths/models.py:74-80 | the profile created for a new user has the default image, no country, no about text and the username as its full name |
| `UserAuths.NewProfileResaved` | backend/userauths/models.py:82-88 | re-saving a just-created profile changes nothing |
| `UserAuths.ProfileClean` | backend/userauths/models.py:66-71 | `Profile.clean` fails, keyed `about`, exactly when `about` is present and longer than 500 characters |
| `UserAuths.ProfileStr` | backend/userauths/models.py:57-59 | `Profile.__str__` is the profile's full name when non-blank, else the user's full name |
| `UserAuths.ProfileStrAfterSave` | backend/userauths/models.py:57-63 | after `Profile.save`, the profile renders as its own name, else the username, else (username blank) the user's full name |
| `UserAuths.UserFits` | backend/userauths/models.py:16-22 | a user row fits when email, username, full name and OTP are within their declared lengths (254, 100, 100, 6) |
| `UserAuths.ProfileFits` | backend/userauths/models.py:44-53 | a profile row fits when full name, country and image name are within their declared lengths (100 each) |
| `UserAuths.NewProfileFits` | backend/userauths/models.py:44-53 | the profile created for a user with a fitting username fits every column, the default image name included |
| `UserAuths.WriteError` | backend/userauths/models.py:16-22 | the database accepts a row exactly when its email and username are held by no other row and, on a strict backend, it fits its columns; a taken email is reported as an email integrity error |
| `UserAuths.AppendKeepsUnique` | backend/userauths/models.py:16-18 | inserting a row whose email and username are free keeps both columns unique |
| `UserAuths.UpdateKeepsUnique` | backend/userauths/models.py:16-18 | overwriting a row with values no other row holds keeps both columns unique |
| `UserAuths.InsertKeepsTablesValid` | backend/userauths/models.py:74-80 | an accepted insert together with its new profile keeps the store invariant, so each user has exactly one profile |
| `UserAuths.UpdateKeepsTablesValid` | backend/userauths/models.py:82-88 | an accepted update with its profile re-save keeps the store invariant |
| `UserAuths.RewriteKeepsKeysFree` | backend/userauths/models.py:16-18 | writing a stored row back with its email and username unchanged meets both unique constraints |
| `UserAuths.ResaveKeepsProfile` | backend/userauths/models.py:87-88 | re-saving a stored profile for its user changes nothing |
| `UserAuths.PasswordRewriteSaves` | backend/api/serializer.py:66-67 | a stored user with only its password replaced is already saved as-is, passes every column check and both unique constraints, and keeps its profile |
| `UserAuths.SetProfileKeepsTablesValid` | backend/userauths/models.py:61-64 | writing a profile as `save` leaves it keeps the store invariant whenever it fits |
| `UserAuths.CreateCollidesOnLocalPart` | backend/userauths/models.py:37-38 | a new, unused email whose local part is already a username is refused on the username constraint |
| `UserAuths.Store.CreateUser` | backend/userauths/models.py:34-88 | creating a user either stores the defaulted row under a new key with exactly one new profile, never one the key already had, or is refused with the constraint's error and changes nothing |
| `UserAuths.Store.SaveUser` | backend/userauths/models.py:34-88 | saving a stored user either overwrites only its row with the defaulted record and re-saves its profile, creating none, or is refused and changes nothing |
| `UserAuths.Store.SaveProfile` | backend/userauths/models.py:61-64 | saving a profile applies its default and writes only that user's profile; no user, or a full name, country or image name over its column on a strict backend, is refused and changes nothing |
| `ApiSerializer.Token.Update` | backend/api/serializer.py:16-20 | `update` gives every key of the argument its new value and keeps all other claims |
| `ApiSerializer.GetToken` | backend/api/serializer.py:11-22 | the token's claims are the base claims plus `full_name`, `email` and `username`, which equal the user's fields; every other base claim is unchanged |
| `ApiSerializer.Validate` | backend/api/serializer.py:48-54 | validation fails, keyed `password`, exactly when the two passwords differ, and otherwise returns the attributes unchanged |
| `ApiSerializer.RunValidation` | backend/api/serializer.py:28-54 | on the field values after DRF's conversion (surrounding whitespace already stripped), the password checks pass if and only if the password satisfies the policy and matches its confirmation; each of their failures is keyed `password`, and a pass returns the input unchanged |
| `ApiSerializer.Unsaved` | backend/api/serializer.py:61-64 | the record `create` starts from saves with the given email, the email's local part as username, the given full name or that local part, a blank password and no OTP |
| `ApiSerializer.Create` | backend/api/serializer.py:56-69 | on success the new row has the given email, the email's local part as username, the given full name or that local part, the password only as `Hashed(hash(password))`, no OTP, and one profile; otherwise the constraint's error and no change |
| `ApiSerializer.UserRepresentation` | backend/api/serializer.py:72-78 | the user output has exactly the keys `id`, `email`, `username` and `full_name`, holding the key and those three fields of the user |
| `ApiSerializer.UserRepresentationHidesSecrets` | backend/api/serializer.py:77 | the user output does not depend on the password or the OTP |
| `ApiSerializer.RegisterRepresentation` | backend/api/serializer.py:28-42 | the registration output has only `email` and `full_name`, holding the user's email and full name; both password fields are write-only |
| `ApiViews.GenerateRandomOtp` | backend/api/views.py:24-26 | the OTP has exactly `length` characters, each a decimal digit, character `i` being draw `i` |
| `ApiViews.EveryDigitStringIsAnOtp` | backend/api/views.py:24-26 | every digit string, leading zeros included, is an OTP some draws produce |
| `ApiViews.DefaultOtpOverflowsColumn` | backend/api/views.py:24 | the default OTP has `OTP_LENGTH + 1` digits, so a row holding it does not fit the declared column |
| `ApiViews.GetObject` | backend/api/views.py:32-35 | the lookup returns the lowest primary key whose row has the email, and none exactly when no row has it |
| `ApiViews.GetObjectUnique` | backend/api/views.py:34 | with unique emails the lookup returns the one matching user |
| `ApiViews.ResetLink` | backend/api/views.py:55 | the link is the frontend's reset page followed by the `otp`, `uuid` and `refresh_token` values; it starts with that page, ends with the token, and has exactly the length of its parts |
| `ApiViews.ResetLinkCarries` | backend/api/views.py:55 | the link starts with the frontend's reset page; its `otp` and `uuid` parameters read back as the OTP and the primary key; it ends with the token |
| `ApiViews.PasswordResetEmailVerify` | backend/api/views.py:37-61 | an unknown email gives 404 with `error` and writes nothing; for a known user, only that user's `otp` becomes the fresh code and the reply is 200 with `message` and the link embedding the code, the key and the token, except on a strict backend, where the save fails, the reply is 500 and nothing is written; profiles never change |
| `FrontendAuth.OptionalGet` | frontend/src/store/auth.js:13-14 | `v?.key` is the property's value when `v` is an object holding it, and undefined otherwise (null, undefined, a primitive, or no such property) |
| `FrontendAuth.OrNull` | frontend/src/store/auth.js:13-14 | `x \|\| null` keeps a truthy value and turns every falsy value into null |
| `FrontendAuth.AuthStore.constructor` | frontend/src/store/auth.js:7-9 | the store starts with `allUserData` null, `loading` false and logged out |
| `FrontendAuth.AuthStore.IsLoggedIn` | frontend/src/store/auth.js:27 | `isLoggedIn()` holds exactly when the user data is not null; undefined data counts as logged in |
| `FrontendAuth.AuthStore.User` | frontend/src/store/auth.js:12-15 | `user()` has both fields null whenever the user data is not an object |
| `FrontendAuth.AuthStore.SetUser` | frontend/src/store/auth.js:18-27 | `setUser` replaces the user data, keeps `loading`, and afterwards `isLoggedIn()` holds exactly when the new data is not null |
| `FrontendAuth.AuthStore.SetLoading` | frontend/src/store/auth.js:24 | `setLoading` replaces the flag and changes neither the user data nor either getter |
| `FrontendAuth.UserSummaryNormalised` | frontend/src/store/auth.js:12-15 | each field of `user()` is null or truthy, never undefined, false, 0 or empty |
| `FrontendAuth.LoggedOutUserIsNull` | frontend/src/store/auth.js:12-15 | with null user data both fields of `user()` are null |
| `FrontendAuth.UserSummaryPassesTruthyFields` | frontend/src/store/auth.js:12-15 | for any object as user data, whatever other claims it holds, each field of `user()` is that property when present and truthy and null otherwise |
| `FrontendAuth.UndefinedDataIsLoggedInAsNobody` | frontend/src/store/auth.js:12-27 | with undefined user data the store reports logged in while both fields of `user()` are null |

## Left out

- **Django's ORM, migrations and transactions.** The store is the two tables, and operations run one at a time.
- **Key gaps after failed inserts.** Keys are modelled as dense (`|users| + 1` for the next user). On PostgreSQL a failed insert still uses up a sequence value, so the real key of the next user can be higher than the one `Store.CreateUser` and `ApiSerializer.Create` return after a refused insert.
- **Saving an instance whose primary key has no row.** Django would insert it. The model saves only new instances (`CreateUser`) and stored ones (`SaveUser`), the two cases the code uses.
- **The password column's length (128).** Hashing is an abstract function, so the digest's length is unknown.
- **The image file storage and the `auto_now_add` timestamp of `Profile`.** The image is only its name.
- **`User.__str__`, which returns the email.** It is display only.
- ApiSerializer.RunValidation: takes the field values after DRF's `CharField` conversion, which strips surrounding whitespace by default; the stripping itself is library code and is not modelled, so a password typed with surrounding spaces reaches the policy, the match check and `Create` without them, and `Create` receives, and hashes, the stripped password.
- **The library parts of registration.** DRF's other field validators (required, blank, maximum length, email format, the `UniqueValidator` on email) and `RegisterView`'s 201/400 replies are library behaviour. The password policy is the caller's `policy` predicate. Duplicate emails are refused by the store's unique constraint rather than by a serializer error.
- **`ProfileSerializer`.** It only nests the user output.
- **The library token's `update`.** `Token.Update` assumes the token that `super().get_token` returns offers a dict-style `update`, as `get_token` calls it. The JWT library is not part of this model, so whether its token class has that method is not checked here.
- **JWT construction, signing and login authentication** (`TokenObtainPairView`, `RefreshToken.for_user`). These are foreign library code, modelled as the `base` claims and the `mint` function.
- **How good the randomness of `random.randint` is.** Draws are the parameter `rand`.
- **The `print` of the reset link.** No email is sent in this code, so none is modelled.
- **The frontend's HTTP, cookie, JWT-decoding and clock-dependent helpers, its layouts, and the admin registration.** These are I/O and UI.
- **JavaScript floats.** `NaN` is falsy too, but numbers in `FrontendAuth` are integers.
