# Helpdesk core: a verified model

A Dafny model of the helpdesk's tenant store and of what runs on it: tickets and their history, backup and
restore, rule compilation, triage and the program cache, mail ingestion and threading, the live event hub and
id minting. The modules follow the Go packages; code that updates state in place is a class or a method with
loops proved against a function, concurrent code is a transition system over its critical sections.

## What is proved

- **Store.** Every one of the 22 operations keeps the store valid (references resolve inside one tenant, the
  unique columns stay unique, comment counts are exact) and touches no other tenant's rows, although the cascades
  match on ids alone. Both hold over every run; the two inputs that break them are named and excluded exactly.
  Each write has a law: which calls it refuses, what the written row holds field by field, that nothing else changes.
- **Backup.** A skip-mode import repeated changes nothing and imports nothing; every row is counted once; an
  import or a wipe touches only its tenant; export, import, export gives the same document exactly when the rows
  are of the kind the services write; remapping is an injective renaming under which references resolve as before.
  An overwriting import leaves each row with what the document says of it last, any other leaves it alone. An import
  that a failing call stops has done exactly the import of the document up to there.
- **Rules.** The text compiled from conditions lexes, parses and evaluates, on every email, to "all" or "any" of
  the conditions' declared meanings. A triage decision is read off the rules by position: the first value set, the
  first mentions of tags, a drop exactly when an action says so. A cached program always equals a fresh compile.
- **Mail.** Over every interleaving and every pattern of failing calls, each attachment row's object exists and
  no object is lost track of; a failed ingestion changed nothing; every mail sent was recorded first, and a reply to it
  finds its ticket. Deliveries one after another record a Message-ID once, answer redeliveries as duplicates, re-open
  tickets, and give a new ticket what triage decided and its acknowledgement; tickets, comments and files say what the
  message says, field by field. Whatever fails, a delivery changes no ticket but the one it is answered with, and no
  other tenant notices.
- **Hub.** Over every interleaving: ids reach a connection in strictly increasing order, nothing after close, no
  gap without a reconnect id, and every entry appended since it was opened while the stream drops none; connection
  counts, limits and tenant entries are exact; shutdown leaves nothing open. A connection is given only what was
  published in its tenant to everyone or to its user, as it was published.
- **Ids and history.** Ids increase for any clock. History rows replay to the ticket's current values as long as,
  and only as long as, no change is made whose history write fails.

## Conventions

- Strings are sequences of Unicode code points, so text is valid UTF-8 by construction; byte limits are computed.
- Clocks, random bytes, casing, printability, RE2 matching, float parsing and printing, and which outside calls fail
  are parameters; the theorems hold for all of them, under the assumptions written in `requires`.
- `Store` gives each operation as a function on a value; `Mem` does the same work in place and is proved equal.

## Findings

- Deleting a comment whose id is empty removes every tenant's attachments without a comment: another tenant is left
  alone exactly when the id is not empty or it has no such attachment (`DeleteCommentIsolatesExactly`). Ids are never
  empty in the services; validity is kept exactly when a created comment has an id (`CreateCommentKeepsValid`).
- A ticket stored with a non-zero comment count breaks the count; validity holds exactly for count zero.
- An export comes back unchanged exactly when the rows carry the stamps and values that the services give them.
- Two interleaved deliveries of one message can leave both a comment and a root ticket (`RaceRecordsBoth` is a run that
  does): exactly when one resolved to a ticket and the other did not (`RaceExactly`), and never when ingestions of one
  message do not overlap between duplicate check and row (`AloneRecordsOnce`).
- Of two interleaved deliveries of one reply the second is answered as a duplicate of the ticket it matched, which is the
  ticket the comment is on exactly when both matched the same one (`DuplicateNamesExactly`).
- A change whose history write fails is missing from the log: a faithful log stays faithful exactly when no such change
  is made (`FaithfulExactly`, over runs `FaithfulThroughout`), until one lost change undoes another (`LostAndBack`).
- Repeating an import that stopped does not restore the history of the tickets the first one had inserted: such a ticket
  ends with the history of an uninterrupted import exactly when none of its rows was behind the stop
  (`RetryRestoresExactly`).
- A replay on reconnecting hands over the first 32 missed entries: it is complete exactly when no more were missed, and
  the others are refused afterwards (`ReplayExactly`).
- Publishing to a list of users reaches exactly those, except that the list of the one name "*", which is accepted,
  reaches everyone (`PublishReachesExactly`).
- With a clock that goes back, the in-process stream appends ids out of order, and readers and open connections silently
  miss the entry: exactly then (`OrderedExactly`, `ReadExactly`, `DeliveredExactly`).
- Ids are ordered exactly as their times modulo 2^48 milliseconds, so order breaks exactly across a multiple of 2^48
  (`MintedInOrderExactly`); stream ids read back exactly for times from 1970 on (`IdReadsBack`).

## Model

| member | source | states |
|---|---|---|
| `StoreValid.ApplyKeepsValid` | internal/memstore/memstore.go:107-1096 | every store operation keeps all references inside one tenant, all unique columns unique and every comment count exact |
| `StoreValid.RunKeepsValid` | internal/memstore/memstore.go:107-1096 | so does every sequence of operations |
| `StoreValid.CreateTicketKeepsValid` | internal/memstore/memstore.go:107-142 | a created ticket keeps the store valid if and only if its comment count is zero (or it was refused) |
| `StoreValid.CreateCommentKeepsValid` | internal/memstore/memstore.go:331-363 | a created comment keeps the store valid if and only if it has an id (or it was refused) |
| `StoreValid.DeleteCommentKeepsValid` | internal/memstore/memstore.go:422-446 | deleting a comment keeps the store valid and the counter's guard against going below zero never fires |
| `StoreValid.DeleteTicketKeepsValid` | internal/memstore/memstore.go:294-326 | the ticket cascade leaves no dangling child |
| `StoreValid.SetDeliveryKeepsValid` | internal/memstore/memstore.go:406-420 | recording a delivery keeps the store valid |
| `StoreValid.DeleteMailboxKeepsValid` | internal/memstore/memstore.go:1037-1063 | unlinking a deleted mailbox leaves no dangling ticket |
| `StoreIsolation.ApplyIsolates` | internal/memstore/memstore.go:107-1096 | an operation of one tenant leaves everything another tenant sees unchanged |
| `StoreIsolation.RunIsolates` | internal/memstore/memstore.go:107-1096 | so does every sequence of operations of other tenants |
| `StoreIsolation.DeleteTicketIsolates` | internal/memstore/memstore.go:294-326 | the cascade by ticket id stays inside the tenant |
| `StoreIsolation.DeleteCommentIsolates` | internal/memstore/memstore.go:422-446 | the cascade by comment id stays inside the tenant |
| `StoreIsolation.DeleteTagIsolates` | internal/memstore/memstore.go:674-689 | unlinking a tag everywhere stays inside the tenant |
| `StoreIsolation.DeleteMailboxIsolates` | internal/memstore/memstore.go:1037-1063 | unrouting tickets stays inside the tenant |
| `StoreIsolation.EmptyCommentIdReachesOtherTenants` | internal/memstore/memstore.go:422-446 | a concrete store in which deleting a comment with an empty id removes another tenant's attachment |
| `StoreIsolation.DeleteCommentIsolatesExactly` | internal/memstore/memstore.go:422-446 | deleting a comment leaves another tenant alone if and only if the comment has an id or that tenant has no attachment without a comment |
| `Memstore.Mem.CreateTicket` | internal/memstore/memstore.go:107-142 | equals the operation: refused exactly for an id or root id in use or a mailbox the tenant lacks; else one new row with every given field and the defaults for status, priority, source and times; an armed failure changes nothing |
| `Memstore.Mem.GetTicket` | internal/memstore/memstore.go:144-161 | a ticket is found exactly when the tenant has it |
| `Memstore.Mem.FindTicketByExternalID` | internal/memstore/memstore.go:163-178 | a root is found exactly when the tenant has one with that non-empty id |
| `Memstore.Mem.UpdateTicket` | internal/memstore/memstore.go:222-245 | equals the operation: the given fields take the given values, every other field and ticket stays |
| `Memstore.Mem.SetAssignee` | internal/memstore/memstore.go:247-266 | equals the operation: assignee and name, no name without an assignee, nothing else |
| `Memstore.Mem.SetStatus` | internal/memstore/memstore.go:268-291 | equals the operation: the status, and a resolution time exactly while resolved, kept while it stays resolved |
| `Memstore.Mem.DeleteTicket` | internal/memstore/memstore.go:294-326 | the loops remove exactly the ticket, its comments, attachments, links and history rows, keep the rest in order, and answer exactly their object keys, sorted |
| `Memstore.Mem.CreateComment` | internal/memstore/memstore.go:331-363 | equals the operation: every given field, the ticket counts one more, and its last message moves only for a public comment with a Message-ID |
| `Memstore.Mem.SetCommentDelivery` | internal/memstore/memstore.go:406-420 | equals the operation: the delivery state and nothing else |
| `Memstore.Mem.DeleteComment` | internal/memstore/memstore.go:422-446 | the loops remove exactly the comment and its attachments, the ticket counts one less, and exactly their keys are answered |
| `Memstore.Mem.FindCommentByMessageID` | internal/memstore/memstore.go:449-464 | a comment is found exactly when the tenant has one with that non-empty id |
| `Memstore.Mem.CreateAttachment` | internal/memstore/memstore.go:483-508 | equals the operation: refused exactly without its ticket or comment or when id or key is taken, else one new row as given |
| `StoreLaws.DeleteAttachmentsLaw` | internal/memstore/memstore.go:547-564 | exactly the attachments of the tenant's ticket go, and exactly their keys are answered |
| `Memstore.Mem.CreateTag` | internal/memstore/memstore.go:566-596 | equals the operation: refused exactly when the id, or kind and name up to case, is taken, else one new row as given |
| `Memstore.Mem.UpdateTag` | internal/memstore/memstore.go:655-672 | equals the operation: name, colour and description are replaced, kind and creation time stay; a name held by another tag refuses it |
| `Memstore.Mem.DeleteTag` | internal/memstore/memstore.go:674-689 | equals the operation: the tag goes and no ticket carries it |
| `Memstore.Mem.EnsureTagByName` | internal/memstore/memstore.go:692-711 | answers the tag with that kind and folded name, creating it exactly when there is none |
| `Memstore.Mem.SetTicketTags` | internal/memstore/memstore.go:713-742 | equals the operation: the ticket carries exactly the given tags, or nothing happens when one is unknown |
| `Memstore.Mem.AddTicketTags` | internal/memstore/memstore.go:744-761 | equals the operation: the given tags are added to those it carries |
| `Memstore.Mem.TagsForTickets` | internal/memstore/memstore.go:763-788 | exactly the asked tickets of the tenant that show tags are answered, each with the rows of its visible tags, each once, in listing order |
| `Memstore.Mem.CreateRule` | internal/memstore/memstore.go:814-835 | equals the operation: one new row that says what is given, version at least 1 |
| `Memstore.Mem.UpdateRule` | internal/memstore/memstore.go:900-919 | equals the operation: the rule says what the given one says, with its old creation time and the next version; every other rule stays |
| `Memstore.Mem.CreateMailbox` | internal/memstore/memstore.go:937-965 | equals the operation: one new row as given under its trimmed, lower-cased address, refused exactly when id or address is taken |
| `Memstore.Mem.UpdateMailbox` | internal/memstore/memstore.go:1016-1035 | equals the operation: the mailbox says what the given one says, its creation time stays |
| `Memstore.Mem.DeleteMailbox` | internal/memstore/memstore.go:1037-1063 | equals the operation: refused exactly when a ticket is routed to it and it is not forced; else those tickets are routed nowhere |
| `Memstore.Mem.RouteMailbox` | internal/memstore/memstore.go:1066-1083 | a mailbox is found exactly when some tenant has the normalised address |
| `Memstore.Mem.AppendHistory` | internal/memstore/memstore.go:1085-1098 | equals the operation: the row is appended as given |
| `Listing.SortBySorts` | internal/memstore/memstore.go:396-404 | the listings' sort gives the same rows in key order |
| `Listing.ListsUnique` | internal/memstore/memstore.go:611-623 | rows with distinct keys have one listing |
| `Listing.ListingOrders` | internal/memstore/memstore.go:396-404 | comments and history list by time and id, tags by kind, lower-cased name and id, rules by order, name and id |
| `BackupRepeat.ImportTwice` | internal/backup/backup.go:335-595 | a skip-mode import repeated, under any other clock, leaves the whole store unchanged, imports no row and counts every row as skipped, for every document and every store whose rows sit under their ids |
| `BackupRepeat.ImportSettles` | internal/backup/backup.go:407-527 | after a skip-mode import every row of the document is present or would be refused again |
| `BackupRepeat.SettledImport` | internal/backup/backup.go:407-527 | importing a settled document changes nothing, imports nothing and counts every row of every collection as skipped |
| `BackupRepeat.ImportCounts` | internal/backup/backup.go:329-362 | in either mode every row of every collection is counted exactly once, as imported or as skipped |
| `BackupScope.ImportConfined` | internal/backup/backup.go:365-527 | an import, in either mode, keeps the store valid and leaves every other tenant's rows unchanged |
| `BackupWipe.WipeEmpties` | internal/backup/backup.go:599-652 | a wipe of everything listed leaves nothing of the tenant, keeps the store valid and every other tenant's rows |
| `BackupRoundTrip.ExportRoundTrip` | internal/backup/backup.go:152-198 | importing an export where the tenant has nothing and no id clashes skips no row of any collection, links included, and exports again to the same document, tickets up to update time and last message |
| `BackupRoundTrip.RestoreIntoEmpty` | internal/backup/backup.go:407-527 | in particular into an empty store |
| `BackupRoundTrip.FullRestore` | internal/backup/backup.go:365-405 | in particular after wiping the tenant in the very store it was exported from |
| `BackupStamped.ServiceBuiltRoundTrip` | internal/backup/backup.go:152-198 | the round trip holds for every store the services build from nothing |
| `BackupStamped.RoundTripExactly` | internal/backup/backup.go:407-527 | the round trip holds if and only if every row carries the stamps and values the services write |
| `BackupStamped.ImportStamps` | internal/backup/backup.go:407-527 | an import writes only rows of that kind |
| `Importer.Import.LoadTags` | internal/backup/backup.go:409-415 | the loop equals the declared load of the collection, store and counters |
| `Importer.Import.LoadMailboxes` | internal/backup/backup.go:416-423 | equals the declared load |
| `Importer.Import.LoadRules` | internal/backup/backup.go:424-430 | equals the declared load |
| `Importer.Import.LoadTickets` | internal/backup/backup.go:496-527 | equals the declared load; created holds exactly the tickets inserted |
| `Importer.Import.Overwrite` | internal/backup/backup.go:530-550 | the three store calls leave the ticket with the given subject, description and assignee, and the given status and priority where they are not empty; every other field and ticket stays |
| `Importer.Import.LoadLinks` | internal/backup/backup.go:552-595 | grouping, de-duplication and per-ticket linking equal the declared load |
| `Importer.Group` | internal/backup/backup.go:553-561 | the tickets of the links, each once, in order of first mention, each with its tags in document order |
| `Importer.Missing` | internal/backup/backup.go:569-581 | the tags not linked yet, each where it is first named |
| `Importer.Import.LoadComments` | internal/backup/backup.go:437-443 | equals the declared load |
| `Importer.Import.LoadHistory` | internal/backup/backup.go:444-458 | equals the declared load: only rows of tickets this import created |
| `Importer.Import.LoadAttachments` | internal/backup/backup.go:459-471 | equals the declared load: only the target's own object keys |
| `Importer.Import.Run` | internal/backup/backup.go:407-473 | with no failing call the whole run equals the declared import, store and all sixteen counters; wherever a failing call stops it, store and counters are those of importing the document up to that row, but for an overwrite of that ticket that was begun and its repeated links counted early; the store is valid and no other tenant's row has changed |
| `BackupCut.FirstLinks` | internal/backup/backup.go:552-595 | linking the first k tickets in order of mention is importing the document with those tickets' links alone |
| `BackupRetry.ImportRestores` | internal/backup/backup.go:444-458 | an import, in either mode, adds every history row of the tickets it inserts and none to any other ticket |
| `BackupRetry.RetryRestoresExactly` | internal/backup/backup.go:407-473 | a ticket inserted by a stopped import keeps through any later import the history it had then, so it ends with as much as an uninterrupted import gives it if and only if none of its rows was behind the stop |
| `BackupOverwrite.ImportCarriesTickets` | internal/backup/backup.go:496-550 | after an overwriting import each ticket the tenant had carries the texts and assignee of its last row and the last status and priority that are not empty, its other fields as before; each ticket brought says what its row says; a skipping import leaves the tenant's tickets as they were, comment counters apart |
| `BackupOverwrite.ImportCarriesTables` | internal/backup/backup.go:407-430 | likewise rules say what their last row says, one version on per row, and tags and mailboxes what their last row says that no other row's name or address refused |
| `Exporter.Export` | internal/backup/backup.go:152-198 | every collection is complete and in its listing order |
| `Exporter.WipeTenant` | internal/backup/backup.go:599-652 | nothing of the tenant is left and every deleted row is counted; even when a listing or a delete fails, no other tenant's row changes and only the tenant's objects that the document does not name again are removed |
| `Exporter.DropObjects` | internal/backup/backup.go:616-620 | every removable key is removed and no kept one |
| `BackupRemap.Remapper.Remap` | internal/backup/backup.go:657-706 | all eight loops rewrite the ids and references of their rows by one injective map; every other field of every row is as it was |
| `BackupRemap.Remapper.Name` | internal/backup/backup.go:659-668 | an id is minted once, never equals an earlier one, and empty stays empty |
| `BackupRemap.RenamingIsInjective` | internal/backup/backup.go:657-706 | two id fields are equal after remapping exactly when they were before, and only an empty one is empty |
| `BackupRemap.ReferencesSurvive` | internal/backup/backup.go:657-706 | a link, comment, history row, attachment or mailbox reference resolves in the result exactly when it did in the source |
| `Ids.Minter.NewID` | internal/store/ids.go:19-45 | the mutable counter and the packed bytes give the id of the next clock state |
| `Ids.MintedInOrder` | internal/store/ids.go:19-45 | for any clock readings and random bytes later ids are greater as text, hence distinct, while the time fits 48 bits |
| `Ids.MintedInOrderExactly` | internal/store/ids.go:19-45 | over any run, two ids minted less than 2^48 milliseconds apart are in order if and only if no multiple of 2^48 milliseconds lies between them |
| `Ids.OrderIsWrappedOrder` | internal/store/ids.go:34-45 | ids of any two times order exactly as those times do modulo 2^48 milliseconds |
| `Ids.OrderBreaksBeyond48Bits` | internal/store/ids.go:19-45 | the first boundary as an instance: the last id before it is greater than the first after it |
| `Ids.BorrowsLittle` | internal/store/ids.go:19-33 | the minted time runs ahead of the greatest reading by at most one millisecond per call |
| `Ids.IdShape` | internal/store/ids.go:34-45 | 36 characters, dashes in place, version 7, RFC 9562 variant |
| `RuleText.Quote` | internal/rules/engine.go:221-243 | the loop builds the literal |
| `RuleText.QuoteIsOneToken` | internal/rules/engine.go:221-243 | the literal of any value lexes as exactly one string token with that value |
| `RuleText.DoubleReads` | internal/rules/engine.go:247-253 | a printed number lexes as one double token, never as an integer |
| `RuleText.BuildExpression` | internal/rules/engine.go:339-363 | the loop, which stops at the first refused condition, equals the declared expression |
| `RuleText.PrintLexes` | internal/rules/engine.go:256-363 | text printed from separable pieces lexes back to exactly their tokens |
| `RuleMeaning.LowerIsFold` | internal/rules/engine.go:207-215 | lower-casing both sides decides equality up to ASCII case |
| `RuleMeaning.CheckedMeans` | internal/rules/engine.go:256-324 | validation accepts exactly the declared conditions, and the validated form means what the stored condition says |
| `RuleMeaning.TestEvaluates` | internal/rules/engine.go:256-324 | the tree of a condition evaluates to its declared meaning |
| `RuleCompile.TestParses` | internal/rules/engine.go:256-324 | the text of a condition parses to its tree |
| `RuleCompile.CompiledRuleMeans` | internal/rules/engine.go:339-363 | for every accepted list and mode the emitted text parses, and on every email its value is all, or any, of the conditions' meanings |
| `RuleCompile.AcceptedExactly` | internal/rules/engine.go:327-363 | a list is accepted exactly with a known mode, one to fifty conditions and every condition acceptable |
| `RuleCompile.EffectiveRule` | internal/rules/engine.go:367-378 | a rule's text is its trimmed raw expression within the size limit, else the compiled text that means what its conditions declare |
| `ProgramCache.Engine.Program` | internal/rules/engine.go:409-431 | a hit answers the cached program, a miss compiles, stores or evicts, and the cache never exceeds its bound |
| `ProgramCache.Engine.Forget` | internal/rules/engine.go:434-438 | evicts exactly the rule |
| `ProgramCache.LookupsAreFaithful` | internal/rules/service.go:330-395 | in every interleaving of rule writes and look-ups on possibly stale rules, every answer equals a fresh compile and the cache stays within its bound |
| `TriageRun.Decide` | internal/rules/apply.go:142-172 | of the rules looked at: drop exactly when a matching rule has a drop action; assignee, status and priority are the first value set, by rule and action; tags are the first mentions in order; the matching rules in order; the number that failed |
| `TriageRun.Merge` | internal/rules/apply.go:96-130 | one more matching rule: what was decided stays, what was not takes the first value the rule sets, its new tags follow in order, a drop action drops |
| `TriageMeaning.DeclaredDecides` | internal/rules/apply.go:96-172 | the decision declared on the list of actions says exactly that, for every rule list and every outcome |
| `Triage.FirstWins` | internal/rules/apply.go:96-130 | a declared field is the first value in order |
| `Triage.DistinctIs` | internal/rules/apply.go:104-117 | the tags are those named, none twice up to case and kind |
| `Triage.MentionOrder` | internal/rules/apply.go:104-117 | each kept tag is its first mention, spelled as there, and the kept tags are in the order of those mentions |
| `Triage.FirstSpelling` | internal/rules/apply.go:104-117 | the first spelling of a tag is the one kept |
| `Triage.KeyIsKindAndName` | internal/rules/apply.go:111-112 | two tags share the loop's key exactly when their kind and lower-cased name agree, for kinds without a NUL |
| `Triage.DecisionWithoutFailures` | internal/rules/apply.go:142-172 | deleting the failing rules changes nothing but the error count |
| `TriageApply.Applier.Apply` | internal/rules/apply.go:176-215 | whatever fails, only this ticket's status, priority, assignee and tags change, history rows are added for it alone, tags are added for its tenant alone and the store stays valid; without failures the ticket carries every decided tag and every decided value that is valid, the assignee's name included, and the others as before |
| `TriageApply.Applier.EnsureTags` | internal/rules/apply.go:180-189 | every answered id is a tag of the tenant, no tag is changed or lost, and without failures every reference has its tag |
| `Tickets.Service.SetStatus` | internal/tickets/tickets.go:465-492 | the store calls equal the declared change; the history row says who changed it, when, from what and to what |
| `Tickets.Service.SetPriority` | internal/tickets/tickets.go:495-519 | equals the declared change, history row as for the status |
| `Tickets.Service.UpdateFields` | internal/tickets/tickets.go:333-376 | equals the declared change: the ticket with exactly the given fields replaced, and a history row for a changed priority |
| `Tickets.Service.Assign` | internal/tickets/tickets.go:412-444 | equals the declared change: assignee and display name, history row as for the status |
| `Tickets.HistoryIsFaithful` | internal/tickets/tickets.go:333-519 | over any run in which no history write fails, each ticket's rows chain per field, never repeat a value, replay to its current status, priority and assignee, and the resolution time is set exactly when it is resolved |
| `Tickets.FaithfulExactly` | internal/tickets/tickets.go:333-519 | a call on a faithful log, whatever fails in it, leaves the log faithful if and only if it did not change status, priority or assignee with its history write failing |
| `Tickets.FaithfulThroughout` | internal/history/history.go:32-40 | over any run with any failures the log is faithful in every state up to a point if and only if no call before it lost a change |
| `Tickets.LostAndBack` | internal/history/history.go:32-40 | a status change and its reversal, both lost, leave a log that is faithful again |
| `Tickets.ListHistory` | internal/memstore/memstore.go:1100-1126 | the listing is the ticket's rows sorted by time and id |
| `Tickets.ListedInOrder` | internal/memstore/memstore.go:1100-1126 | a ticket's listing is its rows in writing order exactly when those are sorted by time and id |
| `Thread.ReferenceRoundTrip` | internal/thread/thread.go:32-59 | on a body without a token the appended reference parses back exactly when the id is 8 to 64 hex digits or dashes (or empty) |
| `Thread.AppendReferenceTwice` | internal/thread/thread.go:48-59 | appending a reference twice is appending it once |
| `Thread.ReplySubjectTwice` | internal/thread/thread.go:61-80 | a reply subject is left alone |
| `ThreadText.AppendReferenceExactly` | internal/thread/thread.go:48-59 | a body that holds a token stays as it is; any other is its text up to its trailing line ends, then the reference lines, and nothing else |
| `ThreadText.ReplySubjectSays` | internal/thread/thread.go:61-80 | the words of a reply subject are those of the original, or "(no subject)", after one "Re:" unless they start with one |
| `Text.TrimSpaceIs` | internal/rules/apply.go:107-110 | a trimmed name is the name without the white space at its two ends: nothing else goes, and none of it stays |
| `Thread.TokenFromSound` | internal/thread/thread.go:40-46 | what is parsed is the leftmost token of the text, character for character |
| `Threading.Resolve` | internal/thread/thread.go:132-168 | the look-ups answer the declared match, or report a failing look-up |
| `Threading.MatchesOnce` | internal/thread/thread.go:127-168 | the priority order comment, root, body token, subject token leaves exactly one answer |
| `Threading.ThreadIds` | internal/mailparse/mailparse.go:149-165 | the first 50 ids of In-Reply-To and then of References backwards that are not empty, each once, in that order |
| `Threading.ChainIs` | internal/mailparse/mailparse.go:149-165 | no empty and no repeated id, none lost below the bound, the first named id first |
| `Threading.CommentFound` | internal/memstore/memstore.go:449-464 | in a valid store the look-up of a recorded Message-ID answers the one comment that carries it |
| `Threading.RootFound` | internal/memstore/memstore.go:163-178 | in a valid store the look-up of a recorded external id answers the one root that carries it |
| `PipelineSafety.NextKeepsSafe` | internal/inbound/inbound.go:325-451 | every step, failing or not, keeps each object with exactly one of: a row, a failed removal, a running process |
| `PipelineSafety.PutKeeps` | internal/inbound/inbound.go:325-339 | an upload's object is new and held |
| `PipelineSafety.RemoveKeeps` | internal/inbound/inbound.go:342-349 | a removal, or its failure, moves one object out of the holder's account |
| `PipelineSafety.WriteNextKeeps` | internal/inbound/inbound.go:352-365 | an attachment row takes over its object |
| `PipelineSafety.FaultlessFile` | internal/inbound/inbound.go:352-365 | without a fault, a staged attachment whose ticket and comment remain gets its row |
| `PipelineSafety.PurgeKeeps` | internal/tickets/tickets.go:380-402 | deleting a ticket or a comment hands its rows' objects to the deleter |
| `PipelineMail.AttachmentSafety` | internal/inbound/inbound.go:325-451 | over every interleaved run every row's object exists; when nothing runs and no removal failed the objects are exactly the rows'; a finished ingestion holds nothing |
| `PipelineWrites.FailedWroteNothing` | internal/inbound/inbound.go:325-451 | over every interleaved run no step of an ingestion that ends as failed has changed the store |
| `PipelineWrites.SentAfterRecorded` | internal/comments/comments.go:227-309 | over every interleaved run each mail handed over was, in an earlier state, recorded as a public comment of its ticket with its Message-ID |
| `PipelineMail.AtMostOneOfEach` | internal/inbound/inbound.go:368-433 | over every interleaved run a Message-ID has at most one root and at most one comment in a tenant |
| `PipelineRace.RaceExactly` | internal/inbound/inbound.go:368-433 | two deliveries of one message past the duplicate check, nothing recorded and nothing failing, end with both a comment and a root if and only if one resolved to a ticket and the other did not |
| `PipelineRace.RaceRecordsBoth` | internal/inbound/inbound.go:258-433 | a run from the empty store that gets there, every look-up answered as the store then stands: a reply delivered before the message it answers and again after it |
| `PipelineRace.AloneRecordsOnce` | internal/inbound/inbound.go:258-433 | over every run in which no two ingestions of a message are between duplicate check and row at once, and nothing else brings its Message-ID, it is never both a comment and a root |
| `PipelineRace.DuplicateNamesExactly` | internal/inbound/inbound.go:368-408 | of two deliveries of one reply past the duplicate check the later is answered as a duplicate of the ticket it matched, and the comment is recorded on that ticket if and only if both matched the same one |
| `PipelineMail.RepliesComeBack` | internal/comments/comments.go:227-309 | while the comment of a mail that was handed over remains, a message whose first thread id is its Message-ID resolves to its ticket |
| `Inbox.Handler.Upload` | internal/inbound/inbound.go:325-339 | every file is staged in order under a new key, or, when an upload fails, nothing is held but failed removals; without failures it succeeds |
| `Inbox.Handler.Discard` | internal/inbound/inbound.go:342-349 | nothing staged remains; without failing removals nothing is left behind |
| `Inbox.Handler.Record` | internal/inbound/inbound.go:352-365 | every staged object ends with a row or is removed; when the store accepts them every file has exactly its row |
| `Inbox.Handler.FindDuplicate` | internal/inbound/inbound.go:294-313 | answers the ticket the Message-ID is recorded on, or that it is recorded nowhere |
| `Inbox.Handler.Reply` | internal/inbound/inbound.go:368-408 | a reply becomes a public comment of the requester on its ticket that says what the message says, with a row for every file on that comment, or nothing is written; without failures it is threaded, noted and the ticket is open afterwards; whatever fails, no other ticket changes and every new row is this ticket's |
| `Inbox.Handler.Reopen` | internal/inbound/inbound.go:393-401 | without failures a resolved or closed ticket is open afterwards and one history row by the inbound edge says so; an open ticket and its history stay as they were, and whatever fails no other ticket and no other row changes |
| `Inbox.Handler.Create` | internal/inbound/inbound.go:411-451 | a new ticket holds what the message says field by field (requester, recipient, mailbox, Message-ID, texts, "(no subject)" for none), with a row for every file, or nothing is written; without failures it is created, carries what triage decided and the defaults elsewhere, a note of what was not stored and, where one is due, its acknowledgement; whatever fails, it is the only new ticket, no old ticket changes and every new row is its own |
| `Inbox.Handler.Acknowledge` | internal/inbound/ack.go:119-157 | without failures the acknowledgement becomes a public comment by the system under its own Message-ID and with its text, recorded there, and says whether the mail could be sent; there stays one record per id and nothing of another ticket changes |
| `Inbox.Handler.Ingest` | internal/inbound/inbound.go:258-291 | without failures the answer is the declared one: a duplicate of its record, else threaded where it matches and the ticket open again, else dropped, else created, triaged and acknowledged; a created ticket and a threaded comment say what the message says; with any failures a recorded Message-ID changes nothing, an accepted one is recorded, changes no ticket but its own and adds one exactly when it is answered as created, a refused one changes nothing, and no other tenant notices |
| `Inbox.Handler.IngestAll` | internal/inbound/inbound.go:258-451 | over any sequence of deliveries a Message-ID is recorded once, redelivering an accepted message answers its ticket as a duplicate (or fails, when a look-up fails), records are only added, every step changes at most the ticket it is answered with and leaves there what the message says, and without failures every delivery is answered as declared of the store it meets |
| `Inbox.OthersSeeNothing` | internal/inbound/inbound.go:258-451 | over any sequence of deliveries, whatever fails, a tenant that none of them is for sees nothing change |
| `TicketFrame.TouchesIsolates` | internal/inbound/inbound.go:258-451 | a change confined to one ticket, its rows and its tenant's tags shows no other tenant anything |
| `Stream.IdReadsBack` | internal/stream/client.go:66-79 | an id reads back as its parts exactly when its time is not negative |
| `Stream.IdOrder` | internal/stream/client.go:82-89 | ids order by time, then sequence |
| `Stream.OrderedExactly` | internal/stream/client.go:91-112 | of two entries of any streams the later one is the greater if and only if the clock did not go back between them |
| `Stream.ReadExactly` | internal/stream/client.go:114-125 | a reader that stands at an entry is given a later one of the stream if and only if the clock did not go back between them |
| `Stream.AppendSorted` | internal/stream/client.go:91-112 | while the clock does not go back, appending and capping keep the stream in order |
| `Stream.Memory.XAdd` | internal/stream/client.go:91-112 | appends one entry under a new id as given, keeps the newest, and leaves the other streams alone |
| `Stream.Memory.EntriesAfter` | internal/stream/client.go:114-125 | the loop answers the first of exactly the later entries, in order, up to the limit |
| `Stream.Memory.XLast` | internal/stream/client.go:169-179 | the newest id, or empty |
| `Stream.Memory.XTrimMinID` | internal/stream/client.go:181-195 | the loop keeps exactly the entries not older than the id, in order |
| `HubBooks.BooksHold` | internal/stream/hub.go:211-379 | in every reachable state the per-user counts equal the open connections, the limits hold, a tenant entry exists exactly while it has an open connection, and after Close nothing is open |
| `HubBooks.FreshNeverRefused` | internal/stream/hub.go:218-238 | a fresh tenant entry refuses its first subscriber exactly under a limit that is not positive |
| `Hub.NewConfig` | internal/stream/hub.go:92-119 | limits are positive after construction, and a positive one is kept |
| `HubDelivery.OrderHolds` | internal/stream/hub.go:251-352 | under every interleaving the ids given to a connection strictly increase and its buffer never overflows |
| `HubDelivery.NothingAfterClose` | internal/stream/hub.go:337-379 | nothing is given to a closed connection, ever |
| `HubDelivery.GapFreePrefix` | internal/stream/hub.go:284-352 | with a clock that does not go back, a connection opened without a last id has been given a prefix of the matching entries dispatched since it joined, and all of them while it is open and idle |
| `HubComplete.EverythingArrives` | internal/stream/hub.go:211-352 | in a run that drops no entry and whose clock does not go back, an open and idle connection opened without a last id has been given, in order, every matching entry of the stream from a position no later than the stream's end when it was opened |
| `HubComplete.ReadsOn` | internal/stream/client.go:114-125 | reading on from an entry of a stream in order gives exactly the entries after it |
| `HubDelivery.DeliveredExactly` | internal/stream/hub.go:337-352 | with room in the buffer a later entry reaches the connection if and only if the clock did not go back since the last one it was given |
| `HubTargets.TargetsExactly` | internal/stream/hub.go:270-280 | an entry goes to a user exactly when its recipients are "*" or name the user between commas |
| `HubTargets.PublishReachesExactly` | internal/stream/hub.go:170-207 | what is accepted for publication to users reaches a user if and only if the user is in the list, or all are asked for, or the list is the one name "*" |
| `HubTargets.MatchingExactly` | internal/stream/hub.go:262-266 | what a user is owed of a list is the entries addressed to the user, all of them, whole and in order |
| `HubAddressed.AddressedOnly` | internal/stream/hub.go:164-352 | over every run whatever a connection has been given, resets aside, was published earlier in its own tenant, to everyone or to its user by name, with that id, type and data |
| `HubAddressed.AddressedArrives` | internal/stream/hub.go:211-352 | in a run that drops no entry and whose clock does not go back, an open and idle connection opened without a last id has been given everything published since it was opened to everyone or to its user |
| `HubAddressed.OpenedFor` | internal/stream/hub.go:211-248 | a connection stays with the tenant, the user and the last id it was opened with |
| `HubReplay.ReplayExactly` | internal/stream/hub.go:250-268 | what is owed is the user's share of the first entries after the last id up to the stream's limit; a replay into an untouched connection hands over the first 32 of it, in order: all if and only if there are no more than 32, and the connection then refuses each of the others |
| `HubServer.Server.Subscribe` | internal/stream/hub.go:211-248 | the critical section equals the protocol step; an opened connection has the asked tenant, user and last id and nothing sent, a refusal opens nothing |
| `HubServer.Server.Send` | internal/stream/hub.go:337-352 | equals the protocol step |
| `HubServer.Server.CloseOne` | internal/stream/hub.go:358-379 | equals the protocol step |
| `HubServer.Server.Collect` | internal/stream/hub.go:315-325 | the loop finds exactly the open connections of the tenant whose user the entry is addressed to |
| `HubServer.Server.Connections` | internal/stream/hub.go:126-135 | the nested loops find exactly the open connections |
| `HubServer.Server.Shutdown` | internal/stream/hub.go:125-139 | every connection is closed, no tenant entry is left and the books still balance |

## Left out

- `internal/repo/repodb`, `internal/store/store.go`, `internal/stream/valkeykv`: the SQL and Valkey bindings; the in-memory store and client stand for them.
- `internal/httpapi`, `internal/grpcapi`, `internal/app`, `cmd`, `pkg`, `api`, `ui`: transport, wiring and user interface.
- `internal/mailparse` beyond the thread ids, `internal/sanitize`, `internal/mailer`: a parsed message is an input and sending is a step.
- `internal/config`, `internal/authz`, `internal/secrets`, `internal/sealed`: checks and cryptography without state.
- Audit, events, metrics and logging: they do not affect the modelled state.
- Document validation and the caller's authorisation before an import (internal/backup/backup.go:126-140, 250-316): the theorems hold for every document.
- CEL cost limits, deadlines, recursion limits and the full CEL grammar: the model has the tokens and operators that compiled rules use; raw expressions are opaque text.
- Validation of subjects, bodies, requesters and rule actions in the services (cleanSubject, cleanBody, normalizeActions): single-call checks on text.
- Paged and filtered listings and statistics (internal/memstore/memstore.go:191-219, 1128-1188): only add easy members.
- The acknowledgement's text and suppression rules (internal/inbound/ack.go:63-117) and the wording of the note about attachments that were not stored (internal/inbound/inbound.go:459-465): the texts, and whether there is one, are parameters.
- Completeness of a replay that races live dispatch or a reading client: only order and no duplicates are claimed; `HubReplay.ReplayExactly` states the undisturbed one.
- HubComplete.EverythingArrives: an entry trimmed or capped away before a slow loop reads it is lost, so runs that drop entries are excluded; `HubDelivery.GapFreePrefix` covers them for the entries the loop dispatched.
- Pipeline.Next: the answer of threading is any ticket id, a superset of what the look-ups can answer under interleaving; a failed upload stores nothing.
- Inbox.Handler.IngestAll: store failures are those the in-memory store can arm, once per method; arbitrary failure patterns are in the interleaved model.
- The waiting half of a blocking stream read (internal/stream/client.go:127-158): a read is one look at the stream.
- Hub.Next: a channel receive is one step; the retry delay and the trim ticker are steps that may happen at any time.
