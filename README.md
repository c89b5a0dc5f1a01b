# StoryChief webhook receiver — a Dafny model

The StoryChief WordPress plugin receives signed notifications from the StoryChief
publishing service at one REST endpoint. `handle` rejects a request with a bad MAC
(`invalid_mac`, 400) and then one with no `meta.event` (`no_event_type`, 400). It
runs the `storychief_before_handle_filter` filter over the payload and stores
`meta.fb-page-ids` as the `meta_fb_pages` option. It then dispatches on the event:

- `publish` inserts a post built from the story;
- `update` rewrites the post named by `external_id`, or answers `post_not_found`/404;
- `delete` deletes by `external_id` without looking first;
- `test` only fires an action;
- any other event gets a null answer.

Error results go back unchanged. Other results pass through the
`storychief_alter_response` filter, and a non-null result gets a MAC.
Publish and update write the post through `safely_upsert_story`. That function
removes the kses sanitisation filters, updates the post when the record has an
`ID` and inserts it otherwise, and then installs the filters again.

The model has these modules:

- `Types`: the decoded payload, story, post record, stored post, action, reply and
  error values, and `State`. `State` holds the post table with its auto-increment
  counter, the plugin options, the kses toggle and the log of `do_action` calls.
  `Env` holds the collaborators the webhook calls but does not define, as
  uninterpreted function values: `validMac`, the signature `appendMac` adds, the
  two `handle` filters, the draft-status and post-type filters, `getPermalink`
  and the kses sanitiser.
- `Records`: the post record rules shared by publish and update.
- `Store`: the post table operations and `safely_upsert_story`. A write made while
  the kses filters are installed stores the sanitised title, content and excerpt.
  This gives the toggle a meaning: a post written by the upsert holds the story's
  HTML unchanged.
- `Handlers`: each handler, the switch and `handle` as functions of the state
  before the request. Their contracts state the gates, the error taxonomy, the
  records written, the order of the actions and what stays unchanged.
- `Receiver`: the class `Webhook`. Its fields are the post table, the counter, the
  options, the kses toggle and the log. `Valid()` is the store invariant (ids
  positive and below the counter), and every method keeps it. The methods
  perform the steps of the PHP functions one side effect at a time. Each method
  is proved to end in the state and result the matching `Handlers`/`Store`
  function computes.
- `Lifecycle`: properties of one or two requests, and of any run of requests.
  Of the lemmas about single requests, four follow from the `Handle` contract
  and two from the handler contracts. In `PublishedIdIsDurable` the update and
  the delete are each applied to the state the publish left. Three lemmas state
  what a replayed delivery does: an update delivered twice leaves the posts of
  the first delivery, while a publish delivered twice creates a second post. The
  five `Run*` lemmas are proved by induction over any run of requests.

The model follows the code in these places:

- An unknown event answers null, and a null answer is not signed
  (`includes/webhook.php:53-55`, `includes/webhook.php:62`).
- `safely_upsert_story` installs the kses filters unconditionally
  (`includes/webhook.php:276`). It does not restore the previous setting, and it
  has no try/finally. `Store.Upsert` therefore promises that sanitisation is on
  afterwards, whatever it was before.
- Publish never looks up an existing post by id or slug: its record has no `ID`,
  so the upsert always inserts (`includes/webhook.php:85-93`).
- The `fb-page-ids` option is written before the dispatch. An update that ends
  in 404 has still written it (`includes/webhook.php:36-38`).

## Model

| member | source | states |
|---|---|---|
| `Records.StoryRecord` | includes/webhook.php:85-102 | status is 'draft' exactly when the draft flag is set and 'publish' otherwise; excerpt is the story's when truthy and '' otherwise; `post_name` is present exactly when `seo_slug` is set and non-empty; `_amphtml` meta is present exactly when `amphtml` is set and is its value; title and content are the story's |
| `Records.PublishRecord` | includes/webhook.php:85-93 | publish's record carries `post_type` and no `ID`; all else follows the story rules |
| `Records.UpdateRecord` | includes/webhook.php:161-168 | update's record carries `ID` = the external id and no `post_type`; all else follows the story rules |
| `Store.InsertPost` | includes/webhook.php:272 | `wp_insert_post` stores the record, sanitised when kses is on, at the counter's id and advances the counter; under the invariant that id is fresh and positive |
| `Store.UpdatePost` | includes/webhook.php:270 | `wp_update_post` merges the record, sanitised when kses is on, into an existing post and returns its id; a missing id gives 0 and no change; the key set and counter never change |
| `Store.DeletePost` | includes/webhook.php:226 | removes exactly the given id (a null id removes nothing); the remaining posts, the counter, options, toggle and log are untouched |
| `Store.Upsert` | includes/webhook.php:265-279 | with no `ID` it inserts exactly one fresh positive id, the counter's; with an existing `ID` it changes only that entry and returns that id; with a missing `ID` it returns 0 and changes nothing; the stored post is the unsanitised record; sanitisation is on afterwards; log and options unchanged |
| `Store.Exists` | includes/webhook.php:151 | `get_post_status` is truthy only for a non-null id; under the store invariant an existing id is positive and below the counter |
| `Handlers.IsDraft` | includes/webhook.php:79-80 | definition with no contract: the `storychief_is_draft_status` filter applied to the test-mode flag (also lines 158-159) |
| `Handlers.PostTypeFor` | includes/webhook.php:82-83 | definition with no contract: the `storychief_change_post_type` filter applied to the `post_type` setting |
| `Handlers.SavedActions` | includes/webhook.php:109-132 | definition with no contract: the save actions, sideload_images, after_publish and the cache flush in source order (also lines 184-207) |
| `Handlers.Admitted` | includes/webhook.php:31-32 | definition with no contract: a valid MAC and a present `meta.event` |
| `Handlers.RouteOf` | includes/webhook.php:40-56 | each of publish/update/delete/test reaches its own handler exactly when the event equals it; every other value, or none, reaches `missingMethod` |
| `Handlers.Publish` | includes/webhook.php:73-140 | inserts one post at the fresh id built by `PublishRecord` from the filtered draft flag and post type, with the story's content unchanged; returns that id and its permalink; logs before_publish, then the five save actions, sideload_images, after_publish and the cache flush, the story carrying the new id; kses is on afterwards |
| `Handlers.Update` | includes/webhook.php:148-215 | an external id with no post gives `post_not_found`/404 and an unchanged state; otherwise only that post changes (merged with `UpdateRecord`), no id is added, the id and permalink are returned and the same action sequence is logged |
| `Handlers.Delete` | includes/webhook.php:223-234 | always answers `{id: external_id, permalink: null}`; removes that id if present, logs after_delete, changes nothing else |
| `Handlers.ConnectionCheck` | includes/webhook.php:241-247 | answers the empty array and only logs after_test |
| `Handlers.Dispatch` | includes/webhook.php:40-56 | each route runs exactly its handler (publish, update, delete and test give that handler's state and result); an unknown event yields a null result with no change; the only failure is update's 404, with no change; a post disappears only through delete of its id; new ids are at or above the counter |
| `Handlers.MissingMethod` | includes/webhook.php:255-257 | `missingMethod` returns null |
| `Handlers.Announce` | includes/webhook.php:106-139 | after the upsert: logs the five save actions, sideload_images, after_publish and the cache flush with the story carrying the id; posts, counter, options and toggle untouched; answers the id and its permalink |
| `Handlers.TestMode` | includes/webhook.php:79 | `(bool) get_sc_option('test_mode')`: false when unset, and PHP truthiness of the stored value otherwise ('' and '0' false, an empty list false) |
| `Handlers.PostTypeSetting` | includes/webhook.php:82 | the `post_type` option when it is a truthy string, and 'post' otherwise (unset, '' or '0'); never a falsy string |
| `Handlers.Configured` | includes/webhook.php:36-38 | `meta_fb_pages` is set to `fb-page-ids` exactly when it is present; nothing else changes |
| `Handlers.Signed` | includes/webhook.php:62-64 | the body is kept; a MAC is attached exactly when the body is non-null, and it is the body's signature |
| `Handlers.Handle` | includes/webhook.php:24-65 | an invalid MAC gives `invalid_mac`/400 with nothing changed; a valid MAC without an event gives `no_event_type`/400 with nothing changed; an admitted request gives the state of `Dispatch` on the filtered payload after the option write, and either its error unchanged or the signed, filtered result; an update of a missing post gives `post_not_found`/404 with no filter or MAC; errors change no post, log or toggle; `meta_fb_pages` is written, as `Configured` writes it, only for an admitted request carrying `fb-page-ids`; the log only grows; kses stays on |
| `Receiver.Webhook.DoAction` | includes/webhook.php:77 | a `do_action` call appends one entry to the log and changes nothing else |
| `Receiver.Webhook.UpdateOption` | includes/webhook.php:36-38 | `update_sc_option` sets exactly one option |
| `Receiver.Webhook.InsertPost` | includes/webhook.php:272 | `wp_insert_post` ends in the state `Store.InsertPost` computes |
| `Receiver.Webhook.UpdatePost` | includes/webhook.php:270 | `wp_update_post` ends in the state `Store.UpdatePost` computes |
| `Receiver.Webhook.DeletePost` | includes/webhook.php:226 | `wp_delete_post` ends in the state `Store.DeletePost` computes |
| `Receiver.Webhook.SafelyUpsertStory` | includes/webhook.php:265-279 | switches kses off, updates or inserts, switches kses on; ends in the state and id of `Store.Upsert` |
| `Receiver.Webhook.Announce` | includes/webhook.php:106-139 | the eight actions after the upsert, in order, then the id and permalink, as `Handlers.Announce` |
| `Receiver.Webhook.HandlePublish` | includes/webhook.php:73-140 | builds the record by conditional assignment and ends as `Handlers.Publish`; the returned id is the counter's value, was free before, and is the one key added; the store invariant is kept |
| `Receiver.Webhook.HandleUpdate` | includes/webhook.php:148-215 | ends as `Handlers.Update`; a failure is `post_not_found` with the state unchanged |
| `Receiver.Webhook.HandleDelete` | includes/webhook.php:223-234 | ends as `Handlers.Delete`; answers `{id: external_id, permalink: null}` |
| `Receiver.Webhook.HandleConnectionCheck` | includes/webhook.php:241-247 | ends as `Handlers.ConnectionCheck`; posts and options unchanged |
| `Receiver.Webhook.Handle` | includes/webhook.php:24-65 | ends as `Handlers.Handle`; the two gates in order, each with the state unchanged |
| `Lifecycle.PublishReplyIsSigned` | includes/webhook.php:134-139 | with no response subscriber, a publish answers the id it inserted, its permalink and the MAC of that answer (lines 60-62) |
| `Lifecycle.DeleteNeverFails` | includes/webhook.php:223-234 | with no response subscriber, an admitted delete answers `{id: external_id, permalink: null}` with its MAC whether or not the post exists |
| `Lifecycle.UpdateOfExistingPostIsSigned` | includes/webhook.php:209-214 | with no response subscriber, an admitted update of an existing post answers its id and permalink with the MAC and adds no key |
| `Lifecycle.UnknownEventIsNull` | includes/webhook.php:255-257 | with no response subscriber, an unknown event answers null without a MAC and changes nothing but the `fb-page-ids` option |
| `Lifecycle.PublishedIdIsDurable` | includes/webhook.php:151-153 | in this store, where delete removes (trash not modelled): an update carrying the id a publish returned finds the post and keeps the key set; a delete carrying it removes exactly that post |
| `Lifecycle.DeleteIsIdempotent` | includes/webhook.php:223-234 | in this store, where delete removes (trash not modelled): deleting twice leaves the same posts as deleting once |
| `Lifecycle.UpdateIsIdempotent` | includes/webhook.php:161-179 | an update of an existing post, applied twice, leaves the posts of the first application: the same record is merged into the same id |
| `Lifecycle.HandledUpdateIsIdempotent` | includes/webhook.php:24-65 | an admitted update of an existing post, delivered twice through `handle`, leaves the posts of the first delivery |
| `Lifecycle.PublishTwiceMakesTwoPosts` | includes/webhook.php:85-93 | a publish delivered twice inserts two posts, at the counter's id and the next one; the second id was free after the first publish |
| `Store.MergeIsIdempotent` | includes/webhook.php:270 | `wp_update_post` with the same record twice gives the post of one update |
| `Lifecycle.RunKeepsValid` | includes/webhook.php:265-279 | after any run of requests, ids are positive and below the counter |
| `Lifecycle.RunOnlyAdvances` | includes/webhook.php:276 | over any run the log only grows, the counter never decreases, and sanitisation, once on, stays on after every request |
| `Lifecycle.RunKeepsUndeleted` | includes/webhook.php:226 | a post survives any run of requests that contains no admitted delete of its id |
| `Lifecycle.RunAssignsFreshIds` | includes/webhook.php:272 | every post created during a run has an id above all ids held before it |
| `Lifecycle.RunRejectsForgeries` | includes/webhook.php:31 | any run of requests with invalid MACs leaves the state exactly as it was |

## Left out

- Route registration and the always-true permission callback (`includes/webhook.php:8-15`) are framework wiring.
- `error_reporting(0)`, `json_decode` and `rest_ensure_response` are not modelled. The model starts from a decoded payload, so a body that fails to decode is not represented.
- `validMac`, `appendMac` and `getPermalink` live in `Storychief\Tools`, which is not part of this model. They are uninterpreted functions in `Env`, and no cryptography is modelled.
- Hook subscribers are not modelled. `do_action` only appends to the log; a subscriber that changes posts or options is not represented. The four filters are arbitrary functions in `Env`.
- `Types.Story`: JSON values are typed. `meta.event` is a string, and `external_id` is an integer id. PHP's loose `switch` comparison on non-string events (`true` would match 'publish') and string ids are not modelled. A missing title or content is the empty string.
- `Handlers.PostTypeSetting`: a truthy `post_type` option that is not a string is treated as unset, so 'post' is used.
- `Store.InsertPost`: `wp_insert_post` always succeeds. Its failure value, unique-slug suffixing, default author (the record's `post_author => null`), and date/GUID fields are not modelled.
- `Store.UpdatePost`: for an existing id the write always succeeds. `wp_update_post` returns 0 when `wp_insert_post` refuses the write (for example when title, content and excerpt are all empty); `handleUpdate` would then fire its actions and answer with id 0. That path is not modelled.
- `Store.DeletePost`: `wp_delete_post` removes the entry. WordPress's move-to-trash for posts and pages when the trash is enabled is not modelled.
- `Store.Upsert`: the post holds the story's HTML unchanged only in this model's store, where kses is the only transformation of a write. In WordPress, `wp_insert_post` still unslashes its input and runs the other `content_save_pre` filters.
- `Store.Sanitize`: one sanitiser stands for the kses save filters on title, content and excerpt. Other kses filters are not modelled.
- `Store.Exists`: `get_post_status` and `wp_delete_post` see no post for a null id. In a REST request there is no global post for them to fall back to.
- `Receiver.Webhook.SafelyUpsertStory`: only normal return is modelled. The PHP has no try/finally, so an exception inside the write would leave the kses filters removed.
- Concurrency between requests is not modelled. Each request runs to completion on the state the previous one left.
