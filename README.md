# Message bookkeeping of the stats bot

This project models the message manager of a Discord stats bot
(`cogs/utils/messages.py`). A `MessageManager` is built for one command
invocation. It tracks a list of chat messages, starting with the message that
triggered the command. `say` sends a reply and tracks it unless asked not to.
`say_and_wait` sends a prompt, tracks it, and takes the user's next message in
the same channel: a reply that starts with `!` is a new command, so the
manager runs its clear pass and reports cancellation; any other reply is
tracked and returned. `clear` hands the list to `clear_messages`, which walks it
in order and deletes every message outside a private (direct) channel.

The model is one module, `Messages` (`messages.dfy`):

- `MessageManager` is a class whose `messages: seq<Msg>` field is reassigned
  where the source appends to its list.
- The Discord client is the class `Bot`. Its send and delete calls only append
  to two ghost logs, `sent` and `deleted`. Every contract about what was sent
  or deleted is stated against these logs.
- The handles the platform returns are method parameters: the sent message
  (`sent` in `Say`, `prompt` in `SayAndWait`) and the user's reply (`reply`).
  A sent handle is required to lie in the manager's channel, as the message
  `send_message` just posted there does.
- `Say` and `SayAndWait` keep the Python defaults (`embed=False`,
  `delete=True`, `mention=True`) as Dafny default-valued parameters.
- `wait_for_message(author=user, channel=channel)` is a filter kept by the
  platform. It appears as the requirement that `reply` comes from the
  manager's user in the manager's channel.
- Python's `False` result of `say_and_wait` is `Reply.Cancelled`.

Where a description of this component and the code disagree, the model
follows the code:

- `clear` does not empty the tracked list, so the manager is never "done".
  A second `clear` issues the same deletions again, so clearing is not
  idempotent (`ClearTwice`).
- Delete errors are not swallowed. The loop has no error handling, so a
  failing delete would end the pass.
- Nothing stops the same handle being tracked twice. The pass then deletes it
  twice (`DeletableCount`).
- The wait for a reply has no timeout.

## Model

| member | source | states |
|---|---|---|
| `Messages.MessageManager.constructor` | cogs/utils/messages.py:23-27 | a fresh manager keeps the bot, user and channel and tracks exactly the triggering message |
| `Messages.MessageManager.Say` | cogs/utils/messages.py:43-51 | exactly one send call goes to the manager's channel: the bare embed, or the text with the user's mention; the sent handle is appended at the end of the list when `delete` holds, earlier entries are unchanged, and the list is untouched otherwise; nothing is deleted; the `mention` flag has no effect |
| `Messages.MessageManager.SayAndWait` | cogs/utils/messages.py:29-41 | the prompt is sent as mention-prefixed text; a reply starting with `!` gives `Cancelled`, tracks only the prompt and runs the clear pass over the old list plus the prompt, so in a public channel the prompt itself is deleted; any other reply is returned and the list becomes old list + [prompt, reply] with nothing deleted |
| `Messages.MessageManager.Clear` | cogs/utils/messages.py:53-55 | the tracked list is left as it was, the delete log grows by exactly the non-private tracked messages in list order, and nothing is sent |
| `Messages.ClearMessages` | cogs/utils/messages.py:13-18 | the loop issues one delete call per message outside a private channel, in list order, and no other platform call |
| `Messages.SayThenClear` | cogs/utils/messages.py:43-55 | a plain `say(content)` with its defaults, followed by `clear`, tracks the sent message at the end of the list and, in a public channel, deletes it |
| `Messages.ClearTwice` | cogs/utils/messages.py:53-55 | two clears in a row leave the list unchanged and issue the same deletions twice |
| `Messages.Deletable` | cogs/utils/messages.py:16-18 | the messages a pass deletes are exactly the tracked ones outside private channels; a private-channel message is never deleted |
| `Messages.DeletableAppend` | cogs/utils/messages.py:16-18 | the pass keeps list order: over `a + b` it deletes `a`'s share and then `b`'s |
| `Messages.DeletableCount` | cogs/utils/messages.py:16-18 | each non-private message is deleted as many times as it is tracked; private ones zero times |
| `Messages.DeletableEmpty` | cogs/utils/messages.py:16-18 | a pass deletes nothing if and only if every tracked message is in a private channel |
| `Messages.DeleteAll` | cogs/utils/messages.py:8-10 | the helper returns true for every message |
| `Messages.IsCommand` | cogs/utils/messages.py:36 | `startswith('!')` holds exactly when the text is non-empty and its first character is `!` |
| `Messages.Prefixed` | cogs/utils/messages.py:31 | the sent text starts with the mention and `": "` and ends with the content |
| `Messages.StripPrefix` | cogs/utils/messages.py:31 | the inverse of the prefixing: it succeeds exactly on texts with the mention prefix, and re-prefixing its result gives the text back |
| `Messages.PrefixedRoundTrip` | cogs/utils/messages.py:31 | stripping the mention prefix from a sent text recovers the content |
| `Messages.PrefixedInjective` | cogs/utils/messages.py:49 | for one mention, different contents produce different sent texts |
| `Messages.SayPayload` | cogs/utils/messages.py:46-49 | an embed is sent with the content as the embed and no mention; plain text is sent with the mention prefix, which strips back to the content |

## Left out

- The Discord calls `send_message`, `wait_for_message` and `delete_message` are foreign I/O. `Bot` records sends and deletes in ghost logs. The returned handles are parameters. Suspension, failures and the missing timeout are not modelled.
- `asyncio.sleep(constants.SPAM_DELAY)` in `clear_messages` is timing only. The only thing kept is that it comes before any delete, as a comment.
- A failing delete, which would abort the pass, is not modelled: every delete call in the model succeeds.
- The `bot` argument of `clear_messages` is the `Bot` object. Its other state (connection, caches) is not modelled.
- An embed object is represented by a string standing for it. `str()` conversion of non-string content is not modelled.
- `cogs/stats.py` is not modelled. It holds command routing, cooldowns, stats API calls and embed building. It uses a different manager class, from `cogs/utils/message_manager.py`, which is not part of this model.
- Concurrency between invocations is not modelled: each manager is used by a single task.
