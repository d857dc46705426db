# hikkoshi-GO: accounts, invites and the group-required redirect

This project models the two pieces of the hikkoshi-GO moving-checklist web application that have behaviour of their own.

- **Accounts, invites and messages** (`app/models.py`, module `Models` in `models.dfy`):
  - `UserManager` checks its arguments before it creates an account. An empty or missing email is refused. `create_superuser` first gives `is_staff` and `is_superuser` a default of `True`, then insists that both are exactly `True`.
  - An `Invite` created without an expiry gets an absolute one, 24 hours after its first save. An expiry, once set, never moves.
  - An invite is expired strictly after its expiry instant, and starts out unused.
  - Accounts, invites and messages each have a display text.
- **The group-required redirect** (`hikkoshigoproject/middleware.py`, module `Middleware` in `middleware.dfy`):
  - `GroupRequiredMiddleware` sends a logged-in user who has no group to the group-creation page.
  - It does not do so for static files, invite links or the exempt pages (`login`, `logout`, `signup`, `create_group`).
  - The decision is the pure function `Decide` over a request record and the URL configuration.

`basics.dfy` (module `Basics`) holds `Option`, `Result` and the Python string operations used: `startswith`, substring `in`, and the slice `[:n]`.

Modelling choices:
- Time is an integer count of seconds, so 24 hours is `DAY` = 86400.
- The clock reading is a parameter (`now`, `s`, `t`).
- Django's `reverse` is a parameter `string -> Option<string>`. `None` stands for a URL name without a route. The exempt loop raises `NoReverseMatch` for such a name when it reaches it.
- `normalize_email` is a parameter of the `UserManager` constructor.
- Saved accounts form a map from email to account. The map enforces the `unique=True` constraint on the email.
- `user.group` is read by the middleware, but `CustomUser` declares no such field. It is therefore an optional opaque identifier on the request's `Visitor`.

The code has no invite redemption, no consumption of invites, no binding of accounts to a household and no owner-only permission check, so the model has none either. No operation sets `is_used` to true. `is_expired` compares strictly (`now > expires_at`, app/models.py:66): at the expiry instant an invite is not yet expired.

## Model

| member | source | states |
|---|---|---|
| `Models.User.ToString` | app/models.py:42-43 | an account is displayed as its email address, its login identifier |
| `Models.SetDefault` | app/models.py:22-23 | `setdefault` adds the key with the default only when it is absent and never changes a value the caller supplied |
| `Models.SuperuserFields` | app/models.py:22-23 | the fields handed on keep every caller value and hold `True` for `is_staff`/`is_superuser` exactly where the caller left them out |
| `Models.SuperuserFlagError` | app/models.py:25-28 | the flag checks pass iff both flags are the boolean `True`; `is_staff` failing gives its own message whatever `is_superuser` is; the `is_superuser` message comes only when `is_staff` passed |
| `Models.SuperuserFlagsAccepted` | app/models.py:21-28 | `create_superuser` gets past its flag checks iff the caller omitted each flag or passed `True` for it |
| `Models.UserManager.CreateUser` | app/models.py:12-19 | a blank or missing email raises `ValueError` and nothing is saved; otherwise exactly one account (normalised email, password, extra fields) is added, unless that email is already saved (unique constraint) |
| `Models.SavedEmailsUnique` | app/models.py:36 | in a valid account store no two saved accounts share an email |
| `Models.UserManager.CreateSuperuser` | app/models.py:21-30 | a failing flag check raises before the email is looked at and saves nothing; otherwise it behaves as `create_user` with the defaulted fields |
| `Models.Invite.constructor` | app/models.py:46-56 | a new invite is unsaved, has the expiry the caller gave (`None` by default) and is unused |
| `Models.Invite.Save` | app/models.py:58-62 | an unset expiry becomes exactly now + 24 h; a set expiry is left unchanged, so saving again never moves it; `is_used` is untouched |
| `Models.Invite.IsExpired` | app/models.py:64-66 | expired iff now is strictly after the expiry, so not at the instant itself; an invite without an expiry raises `TypeError` |
| `Models.ExpiredStaysExpired` | app/models.py:64-66 | an expired invite stays expired at every later time |
| `Models.InviteLifecycle` | app/models.py:54-66 | after a first save at `s` and any later save, the creation time is `s`, the expiry is `s` + 24 h, the invite is expired at `t` iff `t` > `s` + 24 h, and it is still unused |
| `Models.Invite.ToString` | app/models.py:68-70 | the text is the code, then `（by `, the inviter's email and `）` (full-width parentheses), and code and email can be read back from it |
| `Models.InviteTextIdentifies` | app/models.py:68-70 | for codes of equal length, equal invite texts mean equal codes and equal inviter emails |
| `Models.Message.ToString` | app/models.py:87-88 | the text is sender, arrow and receiver, followed by a prefix of the content of length min(15, content length) |
| `Models.ShortMessageShownWhole` | app/models.py:87-88 | content of at most 15 characters appears whole |
| `Basics.StartsWith` | hikkoshigoproject/middleware.py:26 | Python's `startswith`: true iff the prefix is no longer than the string and agrees with it character by character at the start |
| `Basics.Take` | app/models.py:88 | Python's slice `[:n]`: a prefix of the string of length min(n, string length) |
| `Basics.Contains` | hikkoshigoproject/middleware.py:30 | Python's substring `in`: true iff the substring occurs at some position |
| `Middleware.ScanExempt` | hikkoshigoproject/middleware.py:34-36 | the exempt loop ends exempt iff some name's route is a prefix of the path and every earlier name resolved without matching; it raises on the first unresolvable name; it falls through iff every name resolved and none matched |
| `Middleware.Decide` | hikkoshigoproject/middleware.py:18-43 | redirect iff authenticated, not under `/static/`, no `invite=` in the full path, no exempt prefix, and no group; the redirect goes to the route of `create_group`; it fails with `NoReverseMatch(n)` iff the first three guards let the request through and `n` is the first exempt name without a route |
| `Middleware.AnonymousPasses` | hikkoshigoproject/middleware.py:22-23 | an unauthenticated request is always handed on, whatever its path or group |
| `Middleware.StaticPasses` | hikkoshigoproject/middleware.py:26-27 | a path under `/static/` is handed on |
| `Middleware.InviteLinkPasses` | hikkoshigoproject/middleware.py:30-31 | a full path containing `invite=` anywhere is handed on |
| `Middleware.ExemptPathPasses` | hikkoshigoproject/middleware.py:34-36 | a path under the route of any exempt name is handed on, provided the names tried before it have routes; later names are never reversed |
| `Middleware.GroupMemberNeverRedirected` | hikkoshigoproject/middleware.py:39-43 | a user whose group is set is never redirected |
| `Middleware.GroupReadLast` | hikkoshigoproject/middleware.py:19-40 | when an earlier guard has decided, changing the group changes nothing |
| `Middleware.NoRedirectLoop` | hikkoshigoproject/middleware.py:8-40 | following the redirect, with any query string, is handed on, because `create_group` is itself exempt |
| `Middleware.ShownRoutesNeverRedirect` | hikkoshigoproject/middleware.py:34-36 | with the routes the URL configurations declare, every logged-in request not for a static file, an invite link or the login, logout or signup page fails with `NoReverseMatch("create_group")`, whatever the group |
| `Middleware.ShownRoutesFailAtHome` | hikkoshigoproject/middleware.py:34-36 | a logged-in request for `/home/` fails with `NoReverseMatch("create_group")` for every group |
| `Middleware.IntendedRoutesRedirectGroupless` | hikkoshigoproject/middleware.py:6 | with a `create_group` route at `/group/create/`, such a request is redirected there iff the user has no group, and handed on otherwise |

## Left out

- Sending mail through the SendGrid Web API (`app/email_backend.py`) and the password-reset view (`app/views_custom_auth.py`) are network I/O and template rendering.
- The views, URL configurations, forms, admin registrations, context processor and migration are framework declarations or database queries with no logic of their own.
- `normalize_email`, password hashing (`set_password`), `reverse`, `uuid.uuid4` and the clock belong to the framework and are parameters. The password is stored as given: `None` means unusable.
- `reverse` is a parameter, so the general lemmas hold for any URL configuration. `ShownRoute` is the configuration the repository declares. None of its URL configurations has a route named `create_group` (see Findings).
- The framework resolves the redirect location with the same `reverse`. It is the route the exempt loop already found for `create_group`.
- `user.group`: `CustomUser` has no `group` attribute, so the real attribute lookup on an authenticated user would fail. The model takes the group as an input.
- `Models.Invite.Save`: the source reads the clock once for `expires_at` and again, through the database, for `created_at`. The model uses one reading `now` for both.
- `Models.Invite.Save`: time has second resolution, not microseconds.
- `Models.Invite.Save`: the arguments passed on to the database save (`using`, `force_insert`, ...) are not modelled.
- `Models.UserManager.CreateUser`: the `TypeError` Django raises for a keyword that is not a model field is not modelled; any extra field is accepted.
- `Models.UserManager.CreateUser`: the only database failure modelled is a duplicate email.
- `Models.Invite.ToString`: line 69 computes an "Unknown" fallback for a missing inviter that line 70 never uses. The inviter is a required foreign key, so the model's inviter is always present and the fallback has no effect.
- The foreign keys of `Invite` and `Message` are copies of the account's value, where Django reads `self.inviter.email` and `str(self.sender)` through the relation when the text is built. No modelled operation changes a saved account's email, so the texts are the same either way.
- `Message.created_at` is used by no modelled operation and is left out.
- Cascading deletion of invites and messages with their account, and the maximum content length of 500, which is enforced by forms rather than the model, are not modelled.

## Findings

| source | as written | input that shows it | evidently intended | confidence | as-written member | corrected member |
|---|---|---|---|---|---|---|
| hikkoshigoproject/middleware.py:34-36 | the exempt loop reverses `create_group`, but neither hikkoshigoproject/urls.py:24-52 nor app/urls.py:6-12 declares a route with that name, so, on the assumption that these configurations load, `reverse` raises `NoReverseMatch` (`ShownRoute` is that assumed routing) | a logged-in user, with or without a group, requesting `/home/` | a `create_group` route, at the `group/create` page the class documentation names (line 6), so that groupless users are redirected there and everyone else is handed on | low, not executed: with app/views.py as it stands the URL configurations do not load at all (hikkoshigoproject/urls.py:21 imports `portfolio_top_view` and app/urls.py:10 refers to `views.signup`, neither of which app/views.py defines), so the first `reverse` fails with an import error instead; the deployed routing, and a `create_group` route, must come from files not in this repository | `Middleware.ShownRoutesNeverRedirect` | `Middleware.IntendedRoutesRedirectGroupless` |
