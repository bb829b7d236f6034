# Nail-artist directory: listing preview and artist dashboard

This project models, in Dafny, the two pieces of client logic in a small
directory site for home-based nail artists. Everything else in the site is
markup or a call to a hosted table API.

- **Listing** (`listing.dfy`, module `Listing`), from `src/components/Home.jsx`.
  For each fetched artist, the page sorts the artist's posts newest-first by
  `created_at`. It keeps at most three of them as the `recentPosts` preview.
  It then chooses one of four cover layouts from the preview's length:
  - a placeholder;
  - a single image;
  - two halves;
  - one large image with two below.

  The sort, the preview and the layout choice are pure functions, with lemmas
  about them. The component's `artists`/`loading` state is a small class.
- **Dashboard** (`dashboard.dfy`, module `Dashboard`), from
  `src/components/ArtistDashboard.jsx`. The class `ArtistDashboard` holds the
  component's seven state fields. These are `artist`, `posts`, `loading`,
  `editing`, `newPost`, `uploading` and `profileForm`. The class also holds
  the two backing tables, as maps from id to row. The four handlers are
  methods:
  - `FetchArtistData`, for `fetchArtistData`;
  - `SubmitProfile`, for `handleProfileSubmit`;
  - `SubmitNewPost`, for `handleNewPost`;
  - `DeletePost`, for `handleDeletePost`.

  Remote calls are parameters:
  - a read's reply (`Reply`: a payload or an error code);
  - a write's error (`Option<string>`);
  - the ids and timestamps the store assigns.

  The "honest reply" predicates tie a successful read to the tables. A row
  returned by the lookup is the account's stored row. The no-rows code
  `PGRST116` means that the account has no artist row. A posts listing holds
  exactly the artist's stored posts, each once, newest first. Errors other
  than `PGRST116` may occur at any time.
- `records.dfy` (module `Records`) holds the `Artist` and `Post` rows and the
  newest-first ordering. `wrappers.dfy` (module `Wrappers`) holds `Option`
  and `Reply`.

A handler's re-fetch is fired without `await`. The handler therefore finishes,
including its `finally` that clears `uploading`, before the re-fetch's reads
come back. Each handler returns `refetch`, which says whether a re-fetch
follows. The caller then runs `FetchArtistData`, as
`DeletePostAndRefresh` and `FirstProfileSetup` do.

Two behaviours of the code are worth stating:
- `handleProfileSubmit` does not check the name. Only the browser's
  `required` attribute (`src/components/ArtistDashboard.jsx:218`) stops an
  empty one, so the handler sends whatever name the form holds (`:87`,
  `:106`). So does `SubmitProfile`.
- The `average_price` field holds a number after a load and a string after
  typing. A stored price of `0` loads as `''` (`0 || ''`). Saving again
  without touching the price then writes null. `ZeroPriceIsCleared` states
  this behaviour of the code as written.

## Model

| member | source | states |
|---|---|---|
| `Listing.InsertNewestFirst` | src/components/Home.jsx:34-36 | inserting one post into a list adds exactly that post (multiset) and puts it first or keeps the old head first |
| `Listing.InsertKeepsNewestFirst` | src/components/Home.jsx:34-36 | inserting into a newest-first list keeps it newest-first (by induction) |
| `Listing.SortNewestFirst` | src/components/Home.jsx:34-36 | the sort by `created_at` descending returns a permutation of the artist's posts in non-increasing `created_at` order |
| `Listing.RecentPosts` | src/components/Home.jsx:34-40 | the preview has length min(3, number of posts), is newest-first and is a sub-multiset of the posts; absent `posts` gives an empty preview; with at most three posts all of them are kept |
| `Listing.RecentPostsAreNewest` | src/components/Home.jsx:34-40 | no post left out of the preview is newer than the last post in it |
| `Listing.SuffixNoNewer` | src/components/Home.jsx:34-40 | in a newest-first list nothing after a position is newer than the post at it |
| `Listing.ProcessArtist` | src/components/Home.jsx:33-42 | the processed artist keeps its row; its `posts` field is present iff it was and then holds the same posts sorted newest-first (the sort is in place); the preview is a prefix of that sorted list |
| `Listing.ProcessArtists` | src/components/Home.jsx:33-42 | a missing payload gives the empty list; otherwise the length and order are kept, each artist keeps its row, and each gets its own preview |
| `Listing.CoverFor` | src/components/Home.jsx:53-132 | a preview of length 0, 1, 2 or more gives a placeholder, a single image, halves or the large-plus-two layout, and the cover shows the preview's first posts in order |
| `Listing.CoverShowsPreview` | src/components/Home.jsx:53-132 | for a fetched artist with any number of posts the cover shows exactly its preview, the layout is fixed by min(3, number of posts), and with three posts or fewer every post is on the cover |
| `Listing.CoverOmitsOnlyOlder` | src/components/Home.jsx:101-131 | with three posts or more the cover is the large-plus-two layout and no post left off it is newer than the lower-right one |
| `Listing.ListingView.constructor` | src/components/Home.jsx:6-7 | the listing starts with no artists and `loading` true |
| `Listing.ListingView.FetchArtists` | src/components/Home.jsx:13-51 | an error leaves `artists` unchanged; a payload replaces it by the processed list; `loading` is false on every outcome; every preview on display has at most three posts, newest first |
| `Listing.ListingView.CoverAt` | src/components/Home.jsx:162-169 | the cover rendered for a listed artist shows its whole preview, and the large-plus-two layout appears only with exactly three posts |
| `Dashboard.TextOrEmpty` | src/components/ArtistDashboard.jsx:47-52 | a nullable text column loads as its value, or as `''` when it is null |
| `Dashboard.LoadedForm` | src/components/ArtistDashboard.jsx:46-53 | the form a loaded row fills: the name as stored, every other text field as its value or `''`, and the price as the stored number when it is present and non-zero, otherwise as `''` |
| `Dashboard.LoadedPrice` | src/components/ArtistDashboard.jsx:50 | the loaded price field is the stored number when that is present and non-zero, and `''` otherwise (null and 0 alike) |
| `Dashboard.WrittenPrice` | src/components/ArtistDashboard.jsx:90 | a number is written only when the field is non-empty, and a non-empty number field is written as itself |
| `Dashboard.WrittenPriceIsNullIffEmpty` | src/components/ArtistDashboard.jsx:90 | the price is written as null exactly when the field is empty or its text does not parse, and otherwise as the parsed or held number |
| `Dashboard.FieldsOf` | src/components/ArtistDashboard.jsx:86-93 | the column object of an update or insert (lines 105-111 build the same one): every text field as typed, an empty name included; the price null exactly when the field is empty or its text does not parse, and otherwise the number the field holds or the one parsed from its text |
| `Dashboard.WithFields` | src/components/ArtistDashboard.jsx:84-94 | an update keyed by id keeps the row's id, owner and creation time and sets each of the six sent columns to the value sent |
| `Dashboard.NewArtistRow` | src/components/ArtistDashboard.jsx:102-114 | the inserted row has the id and creation time the store assigns, is owned by the session's account, and holds each of the six sent columns as sent |
| `Dashboard.SavedProfileLoadsBack` | src/components/ArtistDashboard.jsx:86-93 | saving the form and loading the saved row back (lines 46-53) gives the same text fields; the price comes back as written (empty, parsed, or the same number) |
| `Dashboard.ZeroPriceIsCleared` | src/components/ArtistDashboard.jsx:50 | a stored price of 0 loads as the empty field `''`, so re-saving the loaded form writes null |
| `Dashboard.TrimStart` | src/components/ArtistDashboard.jsx:135 | the result is a suffix of the input with no leading white space, and only white space was removed |
| `Dashboard.TrimEnd` | src/components/ArtistDashboard.jsx:135 | the result is a prefix of the input with no trailing white space, and only white space was removed |
| `Dashboard.Trim` | src/components/ArtistDashboard.jsx:135 | `image_url.trim()` is a stretch of the input with white space at neither end and only white space outside it |
| `Dashboard.TrimIsEmptyIffBlank` | src/components/ArtistDashboard.jsx:135 | `image_url.trim()` is empty exactly when the URL is blank, that is, every character is white space |
| `Dashboard.ClassifyLookup` | src/components/ArtistDashboard.jsx:37-44 | a returned row is found as itself; the `PGRST116` code, and only that code, means the account has no artist; every other error is a failure |
| `Dashboard.ArtistDashboard.constructor` | src/components/ArtistDashboard.jsx:7-22 | initial state: no artist, no posts, `loading` true, not editing, not uploading, both forms blank; the tables as given |
| `Dashboard.ArtistDashboard.Mount` | src/components/ArtistDashboard.jsx:24-28 | the fetch runs exactly when there is a session, and then has the fetch's effect: the lookup is classified from the reply, a found row becomes `artist` and fills the form, otherwise `artist` and the form are kept, `posts` is replaced only by a successful posts read of a found artist, and `loading` ends false; without a session nothing changes |
| `Dashboard.ArtistDashboard.FetchArtistData` | src/components/ArtistDashboard.jsx:30-75 | `PGRST116` means the account has no artist and changes nothing; other errors (and a missing session) change nothing; a returned row becomes `artist` and fills the form field by field; posts are read only then, and a posts error keeps `posts`; `loading` ends false; displayed posts stay newest-first and belong to the loaded artist |
| `Dashboard.ArtistDashboard.SubmitProfile` | src/components/ArtistDashboard.jsx:77-131 | with an artist loaded, exactly one update keyed by its id and no insert; without one, one insert owned by the session's account whose row becomes `artist`; an error keeps `editing`, the tables and `artist` and asks for no re-fetch; success ends editing and asks for a re-fetch; `uploading` ends false |
| `Dashboard.ArtistDashboard.SubmitNewPost` | src/components/ArtistDashboard.jsx:133-160 | no artist or a blank image URL (one that trims to nothing, by `TrimIsEmptyIffBlank`): nothing at all changes and nothing is sent; otherwise one insert of the form's URL and caption for the artist; success adds the post to the table, resets the form and asks for a re-fetch; an error keeps the form; `uploading` ends false |
| `Dashboard.ArtistDashboard.DeletePost` | src/components/ArtistDashboard.jsx:162-180 | a declined confirmation sends nothing and changes nothing; a confirmed delete sends one delete by id, and on success removes exactly that key from the table and asks for a re-fetch; `uploading` is untouched |
| `Dashboard.ArtistDashboard.DeletePostAndRefresh` | src/components/ArtistDashboard.jsx:162-180 | after a confirmed, successful delete and its re-fetch, the deleted post is not displayed and every other post of the artist is |
| `Dashboard.ArtistDashboard.ToggleEditing` | src/components/ArtistDashboard.jsx:202 | the Edit/Cancel button flips `editing` |
| `Dashboard.ArtistDashboard.CancelEditing` | src/components/ArtistDashboard.jsx:284 | the form's Cancel button clears `editing` |
| `Dashboard.ArtistDashboard.TypeInProfile` | src/components/ArtistDashboard.jsx:216-269 | typing into one profile input sets that field alone, to the typed text (the price as text) |
| `Dashboard.ArtistDashboard.TypeInNewPost` | src/components/ArtistDashboard.jsx:356-367 | typing into one new-post input sets that field alone |
| `Dashboard.OpenFirstProfileForm` | src/components/ArtistDashboard.jsx:30-75 | an account with no artist row loads with no artist and no posts, and the form holds what was typed |
| `Dashboard.FirstProfileSetup` | src/components/ArtistDashboard.jsx:77-131 | first-time setup: saving `{name: "Jo", average_price: "45"}` creates the account's only artist with price 45, and the re-fetch shows it with no posts and editing ended |

## Left out

- Rendering and styling are not modelled. This covers the JSX, the loading
  spinners, avatars, the caption line, the price line and the Instagram link.
  Only the cover layout choice is kept.
- The hosted data client is not modelled as code. It is the two maps plus
  the reply parameters. The honest-reply preconditions stand in for its
  filters (`.eq`), `.single()` and `.order(...)`. The server-side ordering is
  assumed of its answers, not proved.
- Writes by other sessions are not modelled. The tables change only through
  this dashboard. There is no optimistic concurrency check to model either.
- `parseFloat` is abstracted to a parameter, the parsed value, with `None`
  for NaN. `new Date(created_at)` is abstracted to an integer timestamp.
- Posts carry `artist_id` in the listing too, although the listing's join
  selects only `id`, `image_url`, `caption` and `created_at`.
- A null caption is the empty string.
- A rejected `await` is modelled as an error reply, because the handlers give
  it the same effect on state. This covers an exception thrown inside
  `fetchArtists`'s try block. In the dashboard, a posts read that succeeds
  with a null payload is not modelled: `postsData || []` sees only the lists
  it returns. (The listing does model a null payload: `ProcessArtists(None)`
  is the empty list.)
- `SubmitProfile` and `HonestLookup` assume two things of the hosted schema,
  which is not part of this model. First, an account owns at most one
  artist row (a unique `user_id`); `StoreValid` keeps this, and `SubmitProfile`
  requires that an insert succeeds only for an account without a row, so
  the store answers any other insert with an error. Second,
  `PGRST116` means that the account has no row. The source does reach an
  insert when the lookup failed with another error and `artist` stayed null
  (`src/components/ArtistDashboard.jsx:39-42`, `:100-114`). Without a unique
  constraint the store would then hold a second row for the account, and
  `.single()` would report an error for it from then on. The model does not
  cover that case.
- Overlapping asynchronous work is not modelled. Each handler runs to
  completion, and its re-fetch is a separate, later step.
- The window in which `uploading` is true is not modelled: it only exists
  while a write is in flight. So the buttons that `uploading` disables are
  not modelled either.
- Unmounting while a call is outstanding is not modelled.
- Logging (`console.error`) is not modelled.
- `Listing.SortNewestFirst`: stability is not stated. The model's insertion
  sort keeps posts with equal timestamps in their fetched order, but no lemma
  says so.
- The artist order of the listing (`.order('created_at')`) is kept by
  `ProcessArtists` but not checked.
- The detail page (`src/components/ArtistProfile.jsx`) is not part of this
  model.
- The sign-in and sign-up forms (`src/components/Signin.jsx`,
  `src/components/Signup.jsx`) and the auth context they call are not part of
  this model.
- Navigation, the About page and the route table (`src/App.jsx`) are not
  part of this model. In particular, the route table registers `/dashboard`
  only while a session exists. The model keeps the dashboard's own guard
  instead: without a session, `Mount` does nothing and `FetchArtistData`
  fails.
