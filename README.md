# Collectives, people, ledgers and actions across three Holochain zomes

This project models the core of three generations of one Holochain zome
that lets agents form collectives:

- `cogov` (zomes/cogov/code). A collective is a name. A creator is linked to
  it. It has a primary ledger and a journal of actions. Actions can be
  chained into a tree.
- `protocol-love` (zomes/protocol-love/code, classic hdk). People are bound
  to an agent. A collective names a Person as its admin. Validation callbacks
  decide who may create or modify an entry. Every failure carries an error
  breadcrumb (`t(tag, result)`).
- `protocol_love` (zomes/protocol_love/src, newer hdk). The same entities,
  with per-operation validation callbacks and a newer breadcrumb helper
  `t(result, tag)`.

The source-chain and DHT services these zomes call are one abstract
content-addressed store (module `Substrate`), modelled as a class
`Substrate.Store`. Its fields are a map of entries, each with its author, a
map of updates (old address to new address) and a sequence of links. Its
methods `Commit`, `Update` and `CreateLink` may fail at any call. When they
fail they leave the store unchanged. Reads are functions of the store's
value: `EntryAt` for a direct read, `LatestAt` for a read that follows one
update, `Query` for a link query with `LinkMatch` filters, `LinksAndLoadType`
for the classic hdk's `get_links_and_load_type` (a missing target panics, a
target of another type is dropped), and `LoadAll` / `LoadTargets` for reading
several addresses where every one must load. A read never fails for a reason
of the host's own (see "Left out").

Each zome function that writes is a method on the store. The writes it
performs in order are a function of its inputs, its *plan*. Each such
method promises three things:

- what it wrote is a prefix of the plan;
- the new store is the old store with those writes applied;
- it succeeded exactly when the whole plan was written.

So a failure part-way leaves the earlier writes in place, as the zomes do:
they never roll back. Lemmas about the plans state what the zome functions
promise their readers:

- after a create, the collective reads back (cogov, protocol-love, and the
  corrected create of protocol_love);
- after a create, its journal lists the new actions in order, and its people
  include the creator or admin (cogov and protocol-love);
- after a rename, the new version is what a read returns;
- a child action gets exactly one parent.

Each generation's validation callbacks are functions of the entry, the write
kind, the signing agents and the store. Each commit helper runs them before
writing.

## Model

| member | source | states |
|---|---|---|
| PloveUtils.TagError | zomes/protocol-love/src/utils.rs:12-17 | `tag_error` always fails, and its message is the tag followed by the original error |
| PloveUtils.T | zomes/protocol-love/src/utils.rs:20-26 | `t` succeeds exactly when its argument does, passes a success through unchanged, and prefixes a failure's message with the tag |
| PloveUtils.WrapBreadcrumb | zomes/protocol-love/src/utils.rs:20-26 | at any nesting depth, a success comes out unchanged and a failure carries every tag, outermost first, before the original message |
| PloveUtils.NestedTags | zomes/protocol-love/src/utils.rs:20-26 | `t(b, t(a, Err e))` is `Err(b ++ a ++ e)` |
| Plove2Utils.TagError | zomes/protocol_love/src/utils.rs:3-8 | the newer `tag_error` always fails with the tag followed by the error |
| Plove2Utils.T | zomes/protocol_love/src/utils.rs:10-16 | `t(result, tag)` succeeds exactly when `result` does, passes a success through, prefixes a failure with the tag, and is the identity for the empty tag |
| Plove2Utils.SameAsClassic | zomes/protocol_love/src/utils.rs:10-16 | the newer helper equals the classic one with its arguments swapped |
| Plove2Utils.OuterTagFirst | zomes/protocol_love/src/utils.rs:10-16 | wrapping twice puts the outer tag first: `t(t(Err e, a), b)` is `Err(b ++ a ++ e)` |
| Ledgers.PrimaryLedger | zomes/cogov/code/src/ledger.rs:38-43 | the primary ledger is the default ledger renamed "Primary Ledger for " followed by the collective's name |
| Ledgers.PrimaryLedgerInjective | zomes/cogov/code/src/ledger.rs:39 | the collective's name can be read back from its primary ledger, so different names give different ledgers |
| CogovTypes.ToCollective | zomes/cogov/code/src/collective.rs:23-29 | the collective entry keeps the parameters' name and nothing else |
| CogovTypes.ToCollectiveDropsPerson | zomes/cogov/code/src/collective.rs:23-29 | parameters that differ only in the creator give the same collective entry, so the same address |
| CogovTypes.DefaultCollective | zomes/cogov/code/src/collective.rs:36-42 | the default collective is called "unnamed collective" |
| CogovAction.RootCommit | zomes/cogov/code/src/action.rs:59-72 | a root commit writes a prefix of [action entry, collective link]; it succeeds exactly when both were written, and returns the action's address, entry and action unchanged |
| CogovAction.ChildCommit | zomes/cogov/code/src/action.rs:73-91 | a child commit writes a prefix of the root commit's writes plus the parent-to-child link; it succeeds exactly when all were written |
| CogovAction.GetActions | zomes/cogov/code/src/action.rs:130-140 | `get_actions` echoes the collective's address and lists at most one action per `collective_action` link |
| CogovAction.GetActionsInLinkOrder | zomes/cogov/code/src/action.rs:130-140 | the listing fails, with the `unwrap` panic, exactly when a linked target is missing; each action listed is what some linked target loads as; when every target is an action, the i-th action is the i-th link's target |
| CogovAction.RootCommitListed | zomes/cogov/code/src/action.rs:59-72 | in a well-formed store, a root commit appends its action to the collective's listing and changes nothing else in it |
| CogovAction.ChildCommitListed | zomes/cogov/code/src/action.rs:73-91 | in a well-formed store, a child commit appends its action to the collective's listing |
| CogovAction.ChildCommitSingleParent | zomes/cogov/code/src/action.rs:73-91 | a child commit of an action with no parent gives it exactly the given parent and keeps every action single-parented |
| CogovAction.RootCommitNoParent | zomes/cogov/code/src/action.rs:59-72 | a root commit adds no parent edge to any action |
| CogovLedger.CommitLedger | zomes/cogov/code/src/ledger.rs:54-58 | `commit_ledger` returns the ledger's address and stores it, or fails and changes nothing |
| CogovLedger.CreateCollectiveLedger | zomes/cogov/code/src/ledger.rs:38-52 | writes a prefix of [primary ledger, `collective_ledger` link]; succeeds exactly when both were written and returns the ledger's address |
| CogovLedger.LedgerReachable | zomes/cogov/code/src/ledger.rs:38-52 | afterwards the collective's `ledger_primary` links end with one whose target reads as the primary ledger |
| CogovLeger.CreateCollectiveLedger | zomes/cogov/code/src/leger.rs:24-38 | the leger.rs variant writes at most the ledger entry and never a link |
| CogovLeger.LegerAddsNoLink | zomes/cogov/code/src/leger.rs:24-38 | the variant leaves every link query unchanged, so the collective can never reach its ledger |
| CogovCollective.CreateCollectiveAction | zomes/cogov/code/src/collective.rs:260-285 | writes a prefix of [action, link tagged with the action's tag]; the action is always Executed and keeps the given op, data, tag and intent |
| CogovCollective.ActionPlanListed | zomes/cogov/code/src/collective.rs:260-285 | journalling keeps the store well formed and appends the action to `get_actions` |
| CogovCollective.ListingUnchanged | zomes/cogov/code/src/action.rs:130-140 | writes that add no `collective_action` link from a collective leave its listing unchanged |
| CogovCollective.AddCollectivePerson | zomes/cogov/code/src/collective.rs:207-219 | writes a prefix of [Creator link, AddCollectivePerson journal entry]; succeeds exactly when all were written |
| CogovCollective.CreateCollective | zomes/cogov/code/src/collective.rs:120-132 | writes a prefix of collective, CreateCollective journal, ledger, SetCollectiveName journal, Creator link and AddCollectivePerson journal, in that order; succeeds exactly when all were written, returning the collective and its address |
| CogovCollective.CreateLinksSelected | zomes/cogov/code/src/collective.rs:120-132 | of the five links a creation appends, the journal reads select exactly the three action links and the people reads exactly the Creator link |
| CogovCollective.CreateCollectiveJournal | zomes/cogov/code/src/collective.rs:120-132 | a creation in a well-formed store journals CreateCollective, SetCollectiveName and AddCollectivePerson, in that order, after what was already listed |
| CogovCollective.CreateCollectiveCreator | zomes/cogov/code/src/collective.rs:158-169 | after creating a collective that had no creator, `get_collective_creator` returns the given person |
| CogovCollective.CreateCollectivePeople | zomes/cogov/code/src/collective.rs:171-182 | after a creation the given person is appended to the collective's people |
| CogovCollective.CreateCollectiveStored | zomes/cogov/code/src/collective.rs:120-132 | after a creation the collective reads back at its hash, unless that collective had been renamed before |
| CogovCollective.GetCollective | zomes/cogov/code/src/collective.rs:135-142 | succeeds exactly when the latest version at the address is a collective, and returns that version with the queried address |
| CogovCollective.GetCollectiveCreator | zomes/cogov/code/src/collective.rs:158-169 | the creator payload echoes the queried address |
| CogovCollective.CreatorIsFirstLink | zomes/cogov/code/src/collective.rs:158-169 | the call succeeds exactly when every Creator link's target exists and one of them is a person; the creator is the person at the first such target; with no Creator link the call fails (the source panics in `remove(0)`) |
| CogovCollective.GetCollectivePeople | zomes/cogov/code/src/collective.rs:171-182 | returns at most one person per `collective_person` link, whatever the tag |
| CogovCollective.PeopleInLinkOrder | zomes/cogov/code/src/collective.rs:171-182 | the people listing fails, with the `unwrap` panic, exactly when a linked target is missing; each person listed is what some linked target loads as; when every target is a person, the i-th person is the i-th link's target |
| CogovCollective.CreatorLinksArePeopleLinks | zomes/cogov/code/src/collective.rs:158-182 | every Creator link is also selected by the people query |
| CogovCollective.SetCollectiveName | zomes/cogov/code/src/collective.rs:144-156 | a collective that does not load gives its read error and no write; otherwise writes a prefix of [renamed update, SetCollectiveName journal] and returns the given address with the renamed collective |
| CogovCollective.RenameVisible | zomes/cogov/code/src/collective.rs:144-156 | after a rename, `get_collective` at the original address returns the renamed collective |
| CogovCollective.RenameJournal | zomes/cogov/code/src/collective.rs:144-156 | a rename appends SetCollectiveName to the collective's listing |
| PloveTypes.ToCollective | zomes/protocol-love/code/src/collective.rs:31-38 | the collective copies the parameters' name and admin |
| PloveTypes.DefaultCollective | zomes/protocol-love/code/src/collective.rs:40-46 | the default collective is "unnamed collective" with no admin |
| PlovePerson.ValidateName | zomes/protocol-love/code/src/person.rs:147-153 | a name passes exactly when its UTF-8 encoding is at most 64 bytes; otherwise "Name is too long" |
| PlovePerson.ValidatePerson | zomes/protocol-love/code/src/person.rs:106-131 | admits exactly the admissible writes: a create by the person's agent, a modify keeping the agent and signed by it, a fitting name, never a delete; each refusal gives its message in the order checked |
| PlovePerson.NameLimitAscii | zomes/protocol-love/code/src/person.rs:147-153 | on ASCII names the limit is 64 characters |
| PlovePerson.NameLimitChars | zomes/protocol-love/code/src/person.rs:147-153 | any name longer than 64 characters is refused |
| PlovePerson.NameLimitBytes | zomes/protocol-love/code/src/person.rs:147-153 | 33 copies of 'é' are refused though far below 64 characters: the limit counts bytes |
| PlovePerson.OwnPersonAdmitted | zomes/protocol-love/code/src/person.rs:106-131 | an agent may always create its own person under a fitting name |
| PlovePerson.AuthorshipBeforeName | zomes/protocol-love/code/src/person.rs:106-131 | a create for another agent is refused as such, whatever the name |
| PlovePerson.DefaultPersonParams | zomes/protocol-love/code/src/person.rs:50-58 | the default parameters are the calling agent's, with an empty name and status Active |
| PlovePerson.ToPersonParams | zomes/protocol-love/code/src/person.rs:26-40 | keeps every supplied field and takes the missing ones from the defaults |
| PlovePerson.ToPersonParamsRoundTrip | zomes/protocol-love/code/src/person.rs:26-40 | supplying every field gives those parameters back |
| PlovePerson.ToPersonParamsDefaults | zomes/protocol-love/code/src/person.rs:26-40 | supplying only a name gives the caller's own active person |
| PlovePerson.CommitPerson | zomes/protocol-love/code/src/person.rs:185-189 | an inadmissible person is refused with the validator's message and nothing is written; otherwise the entry is stored or the call fails with no write |
| PlovePerson.CreatePerson | zomes/protocol-love/code/src/person.rs:156-171 | succeeds only for the calling agent's own person under a fitting name, returning it with its address; a person for another agent is refused with "create_person: " and NotByAgent's message |
| PloveLedger.CommitLedger | zomes/protocol-love/code/src/ledger.rs:60-65 | stores the ledger and returns its address, or fails with the "commit_ledger: " breadcrumb and no write |
| PloveLedger.CreateCollectiveLedger | zomes/protocol-love/code/src/ledger.rs:42-58 | writes a prefix of [ledger, `collective->ledger` link]; a failed commit is reported with both breadcrumbs and no write, a failed link with the link breadcrumb |
| PloveLedger.LedgerReachable | zomes/protocol-love/code/src/ledger.rs:42-58 | afterwards the collective's last `ledger_primary` link leads to the primary ledger |
| PloveCollective.ValidateCollective | zomes/protocol-love/code/src/collective.rs:89-133 | admits exactly the admissible writes: a create signed by its admin's agent, a modify signed by the agent of the old version's admin, never a delete; each refusal names its reason (no admin, admin not found, not signed, needs a proposal, cannot delete) |
| PloveCollective.ModifyJudgedByOldVersion | zomes/protocol-love/code/src/collective.rs:108-128 | two new versions of one collective get the same verdict, even one naming another admin |
| PloveCollective.CreateCollectiveAction | zomes/protocol-love/code/src/collective.rs:377-405 | writes a prefix of [action, link]; the action is Executed and keeps op, data, tag and strategy; a failure carries the builder's breadcrumb |
| PloveCollective.ActionPlanListed | zomes/protocol-love/code/src/collective.rs:377-405 | journalling appends the action to the collective's journal |
| PloveCollective.AddCollectivePerson | zomes/protocol-love/code/src/collective.rs:337-356 | writes a prefix of [Creator link, journal entry]; each failure carries its own breadcrumb |
| PloveCollective.GetCollectivePeople | zomes/protocol-love/code/src/collective.rs:264-285 | returns at most one person per `collective->person` link, whatever the tag, and fails with the breadcrumb otherwise |
| PloveCollective.PeopleInLinkOrder | zomes/protocol-love/code/src/collective.rs:264-285 | the people listing fails exactly when a linked target is missing, with the breadcrumb before the `unwrap` panic; each person listed is what some linked target loads as; when every target is a person, the i-th person is the i-th link's target |
| PloveCollective.GetCollective | zomes/protocol-love/code/src/collective.rs:235-244 | succeeds exactly when the latest version at the address is a collective, and returns it |
| PloveCollective.CommitCollective | zomes/protocol-love/code/src/collective.rs:297-303 | a collective whose admin did not sign is refused with the validator's message and no write |
| PloveCollective.DefaultAdmin | zomes/protocol-love/code/src/collective.rs:189-200 | the admin created when none is given is the caller's own, unnamed and active |
| PloveCollective.Created | zomes/protocol-love/code/src/collective.rs:202-211 | the committed collective keeps the given name and always names the resolved admin |
| PloveCollective.CreateFounding | zomes/protocol-love/code/src/collective.rs:212-219 | writes a prefix of the CreateCollective journal entry and the primary ledger; succeeds exactly when both were written; a failure carries "create_collective: " |
| PloveCollective.CreateNaming | zomes/protocol-love/code/src/collective.rs:220-227 | writes a prefix of the SetCollectiveName journal entry, the Creator link and its journal entry; succeeds exactly when all were written; a failure carries "create_collective: " |
| PloveCollective.CreateResolved | zomes/protocol-love/code/src/collective.rs:202-227 | after the admin is resolved, writes a prefix of collective, journal, ledger, journal, Creator link and journal; every failure carries "create_collective: " |
| PloveCollective.CreateCollective | zomes/protocol-love/code/src/collective.rs:170-232 | writes a prefix of [the default admin if none given] and then the collective's writes; succeeds exactly when all were written; a given admin that does not load gives a breadcrumbed error and no write |
| PloveCollective.CreateLinksSelected | zomes/protocol-love/code/src/collective.rs:202-227 | of the five links a creation appends, the journal reads select the three action links and the people read the Creator link |
| PloveCollective.CreateCollectiveJournal | zomes/protocol-love/code/src/collective.rs:170-232 | a creation journals CreateCollective, SetCollectiveName and AddCollectivePerson, in that order |
| PloveCollective.CreateCollectivePeople | zomes/protocol-love/code/src/collective.rs:170-232 | after a creation the admin is the last person listed |
| PloveCollective.CreateCollectiveStored | zomes/protocol-love/code/src/collective.rs:170-232 | after a creation the collective reads back with its admin set |
| PloveCollective.DefaultAdminAdmitted | zomes/protocol-love/code/src/collective.rs:189-211 | without a given admin, validation cannot refuse the collective, because the admin just created is the caller's own |
| PloveCollective.UpdateCollective | zomes/protocol-love/code/src/collective.rs:287-293 | the update is judged by the Modify validation of the version it replaces and refused with no write when inadmissible |
| PloveCollective.SetCollectiveName | zomes/protocol-love/code/src/collective.rs:246-262 | only the name changes and the admin is kept; the payload carries the given address; only the admin's agent may rename |
| PloveCollective.RenameVisible | zomes/protocol-love/code/src/collective.rs:246-262 | after a rename, reading the original address gives the renamed collective |
| PloveCollective.RenameJournal | zomes/protocol-love/code/src/collective.rs:246-262 | a rename appends SetCollectiveName to the journal and leaves the rest unchanged |
| Plove2Types.Both | zomes/protocol_love/src/person.rs:57-92 | a write passes the conductor exactly when both the general and the per-operation callback pass; the first refusal is the answer |
| Plove2Person.ValidateName | zomes/protocol_love/src/person.rs:96-102 | a name passes exactly when it is at most 64 bytes of UTF-8 |
| Plove2Person.NameRuleUnchanged | zomes/protocol_love/src/person.rs:96-102 | the name rule is the classic zome's |
| Plove2Person.NameLimitBytes | zomes/protocol_love/src/person.rs:96-102 | 32 copies of 'é' fit and 33 do not |
| Plove2Person.ValidatePerson | zomes/protocol_love/src/person.rs:57-62 | the general callback admits exactly the Person entries |
| Plove2Person.ValidateCreatePerson | zomes/protocol_love/src/person.rs:64-76 | admits exactly a person carrying its author's key under a fitting name |
| Plove2Person.ValidateUpdatePerson | zomes/protocol_love/src/person.rs:78-92 | the create rule with its own message; only the new version is looked at |
| Plove2Person.ValidatePersonWrite | zomes/protocol_love/src/person.rs:57-92 | a create or update passes exactly when the person carries its author's key under a fitting name; a delete passes exactly when the entry is a Person |
| Plove2Person.UpdateMayRebindPerson | zomes/protocol_love/src/person.rs:78-92 | any agent may replace any person with one carrying its own key, where the classic zome refused a changed agent |
| Plove2Person.ToPersonParams | zomes/protocol_love/src/person.rs:112-123 | keeps name and status, makes the collective optional, defaults a missing status |
| Plove2Person.ToPersonParamsIgnoresKey | zomes/protocol_love/src/person.rs:112-123 | the optional agent key is dropped, whatever it says |
| Plove2Person.ToPersonParamsRoundTrip | zomes/protocol_love/src/person.rs:112-123 | supplying collective, name and status gives those back |
| Plove2Person.ToPerson | zomes/protocol_love/src/person.rs:131-142 | the person always carries the caller's key and the parameters' name and status; an `agent_info` failure is passed on |
| Plove2Person.HashTagNotWord | zomes/protocol_love/src/person.rs:11-32 | a person-hash tag is all digits, so it never equals a tag word of the zome |
| Plove2Person.CreatePersonEntry | zomes/protocol_love/src/person.rs:64-92 | a person refused by its callbacks is not written and the callback's reason is returned |
| Plove2Person.CreatePerson | zomes/protocol_love/src/person.rs:11-32 | writes a prefix of [person, link from the given collective]; succeeds exactly when all were written, returning the caller's person; a name over 64 bytes is refused with no write |
| Plove2Person.GetPerson | zomes/protocol_love/src/person.rs:35-50 | succeeds exactly when a Person is stored at the hash, and returns it with that hash; otherwise the error is "person hash not found" |
| Plove2Person.CreateThenGet | zomes/protocol_love/src/person.rs:11-50 | what `create_person` returns, `get_person` reads back |
| Plove2Action.RootCommit | zomes/protocol_love/src/action.rs:84-93 | writes a prefix of [action, collective link]; succeeds exactly when both were written; returns hash, entry and action unchanged |
| Plove2Action.ChildCommit | zomes/protocol_love/src/action.rs:94-107 | writes a prefix of the root commit's writes plus the parent link |
| Plove2Action.GetActions | zomes/protocol_love/src/action.rs:115-126 | echoes the queried hash and lists one action per `collective_action` link |
| Plove2Action.GetActionsReversed | zomes/protocol_love/src/action.rs:115-126 | `get_actions` lists the linked actions in reverse link order, and succeeds exactly when all load |
| Plove2Action.LoadAllReverse | zomes/protocol_love/src/action.rs:119-121 | loading addresses back to front gives the values back to front, and succeeds exactly when the forward load does |
| Plove2Action.CommitListedFirst | zomes/protocol_love/src/action.rs:84-93 | a committed action is listed first by `get_actions`, before every action already listed |
| Plove2Action.ChildCommitSingleParent | zomes/protocol_love/src/action.rs:94-107 | a child commit gives a parentless action exactly the given parent and keeps every action single-parented |
| Plove2Action.RootCommitNoParent | zomes/protocol_love/src/action.rs:84-93 | a root commit adds no parent edge |
| Plove2Ledger.CommitLedger | zomes/protocol_love/src/ledger.rs:60-65 | stores the ledger or fails with the "commit_ledger: " breadcrumb and no write |
| Plove2Ledger.CreateCollectiveLedger | zomes/protocol_love/src/ledger.rs:42-58 | writes a prefix of [ledger, `collective->ledger` link], with the breadcrumbs of each failing step |
| Plove2Ledger.LedgerReachable | zomes/protocol_love/src/ledger.rs:42-58 | afterwards the collective's last `ledger_primary` link leads to the primary ledger |
| Plove2Collective.ValidateCollective | zomes/protocol_love/src/collective.rs:57-62 | the general callback admits exactly the Collective entries |
| Plove2Collective.ValidateUpsertCollective | zomes/protocol_love/src/collective.rs:90-114 | a collective passes exactly when its admin hash is given, reads as a Person, and that person carries the key of the agent that wrote the person; each other case gets its own reason, "No admin_entry_hash" when no hash is given |
| Plove2Collective.ValidateUpsertEntry | zomes/protocol_love/src/collective.rs:81-89 | a non-collective entry is refused; a collective gets the upsert verdict |
| Plove2Collective.ValidateCollectiveWrite | zomes/protocol_love/src/collective.rs:57-89 | create and update pass exactly when the upsert check passes; a delete is refused with "Collective cannot be deleted"; a non-collective is refused |
| Plove2Collective.VerdictFollowsAdmin | zomes/protocol_love/src/collective.rs:71-77 | an update's verdict depends only on the new version's admin hash: a rename gets the verdict of the original |
| Plove2Collective.AnyPersonQualifies | zomes/protocol_love/src/collective.rs:90-114 | in a store where every person passed `validate_create_person`, naming any stored person as admin passes, whoever writes the collective |
| Plove2Collective.Journalled | zomes/protocol_love/src/collective.rs:398-422 | the journalled action is Executed and keeps the given op, data, tag and strategy |
| Plove2Collective.CreateCollectiveAction | zomes/protocol_love/src/collective.rs:398-422 | writes a prefix of [action, link tagged with the action's tag], returning the journalled action |
| Plove2Collective.AddCollectivePerson | zomes/protocol_love/src/collective.rs:319-331 | writes a prefix of [`add_collective_person` link, AddCollectivePerson journal entry] |
| Plove2Collective.GetCollectivePeople | zomes/protocol_love/src/collective.rs:259-270 | lists the people linked with tag `collective_person` |
| Plove2Collective.PeopleMembers | zomes/protocol_love/src/collective.rs:259-270 | a hash is listed exactly when a `collective_person` link from the collective targets it |
| Plove2Collective.GetCollective | zomes/protocol_love/src/collective.rs:203-214 | succeeds exactly when a collective is stored at the hash, and returns it with the hash |
| Plove2Collective.CreateCollectiveEntry | zomes/protocol_love/src/collective.rs:159-172 | a collective whose admin Person was not written by the agent whose key it carries is refused with the validator's reason and not written |
| Plove2Collective.ResolveAdmin | zomes/protocol_love/src/collective.rs:137-158 | a given admin is read back; otherwise the caller's person is created; a name over 64 bytes is refused before any write |
| Plove2Collective.CreateFounding | zomes/protocol_love/src/collective.rs:173-180 | writes a prefix of the CreateCollective action and the primary ledger; succeeds exactly when both were written; a failure carries "create_collective: " |
| Plove2Collective.CreateNaming | zomes/protocol_love/src/collective.rs:181-190 | writes a prefix of the SetCollectiveName action, the admin's link and its AddCollectivePerson action; succeeds exactly when all were written; a failure carries "create_collective: " |
| Plove2Collective.CreateResolved | zomes/protocol_love/src/collective.rs:159-191 | writes a prefix of the collective's writes; a collective whose admin Person was not written by the agent whose key it carries is refused with the breadcrumbed reason before any write |
| Plove2Collective.CreateCollective | zomes/protocol_love/src/collective.rs:130-196 | as written: writes a prefix of admin then collective writes; a collective committed without an admin hash always fails |
| Plove2Collective.NoAdminRefused | zomes/protocol_love/src/collective.rs:159-172 | the collective committed when no admin hash is given is refused as "No admin_entry_hash" |
| Plove2Collective.CreateCollectiveWithAdmin | zomes/protocol_love/src/collective.rs:130-196 | corrected: the collective names the resolved admin's hash; same prefix contracts |
| Plove2Collective.CorrectedAdmitted | zomes/protocol_love/src/collective.rs:90-114 | the corrected collective passes validation after its admin is created |
| Plove2Collective.CorrectionAgreesWhenGiven | zomes/protocol_love/src/collective.rs:137-172 | with an admin given, the corrected and as-written collectives coincide |
| Plove2Collective.CorrectedStored | zomes/protocol_love/src/collective.rs:130-196 | after the corrected creation the collective reads back with the admin's hash, and the admin's person reads back |
| Plove2Collective.CollectivePeople | zomes/protocol_love/src/collective.rs:319-331 | corrected lookup: a hash is listed exactly when an `add_collective_person` link from the collective targets it |
| Plove2Collective.AddPersonUnlisted | zomes/protocol_love/src/collective.rs:259-270 | as written: adding a person never changes `get_collective_people` |
| Plove2Collective.AddedPersonNotListed | zomes/protocol_love/src/collective.rs:259-270 | as written: an added person absent before is absent after |
| Plove2Collective.AddPersonListed | zomes/protocol_love/src/collective.rs:319-331 | corrected: adding a person appends it to the people |
| Plove2Collective.CreateListsAdmin | zomes/protocol_love/src/collective.rs:184-191 | corrected: a creation appends its admin to the people |
| Plove2Collective.CreateLeavesActions | zomes/protocol_love/src/collective.rs:398-422 | a creation's journal links are not tagged `collective_action`, so `get_actions` does not change |
| Plove2Collective.UpdateCollective | zomes/protocol_love/src/collective.rs:277-289 | the update is judged first; a refusal gives the reason and no write |
| Plove2Collective.SetCollectiveName | zomes/protocol_love/src/collective.rs:222-249 | an unreadable collective gives an error and no write; otherwise writes a prefix of [renamed update, journal] and returns the new hash with the renamed collective; a rename whose admin Person was not written by the agent whose key it carries gives the validator's reason and no write |
| Plove2Collective.RenameMovesAddress | zomes/protocol_love/src/collective.rs:222-249 | a renamed collective has a new address, different from the one given |
| Plove2Collective.RenameReadBack | zomes/protocol_love/src/collective.rs:222-249 | after a rename the old hash still reads the old version, the new hash the renamed one, and the store stays well formed |
| Plove2Collective.RenameJournalsNewHash | zomes/protocol_love/src/collective.rs:222-249 | links from the given hash are unchanged; the rename's journal link comes from the new hash |

## Left out

- Substrate: `hash_entry` and `to_app_option` never fail. Serialisation is not modelled; entries are values.
- Substrate: a header hash is the address of its entry. The newer hdk's action hashes are not distinguished from entry hashes.
- Substrate: the classic hdk's "latest" read follows one update. A chain of updates is followed only one step.
- Substrate: concurrency, gossip and DHT eventual consistency are left out. The store is one sequential value.
- Substrate: link addresses and link deletion are left out. `link_entries` returns nothing the zomes use.
- Link validation is left out. Every link is accepted, as the zomes' link definitions do.
- The hdk's exact error strings and its wrapping of validation messages are left out. A refusal is the validator's own message.
- Validation is run at the write by the commit helpers, with the writing agent as the only source. Validation packages and DHT re-validation are left out.
- `get_person`'s `Path::ensure` (zomes/protocol_love/src/person.rs) has no effect on what is read and is not modelled.
- zomes/protocol-love/code/src/action.rs is not part of this model. The journal is read through the links `collective.rs` makes.
- Proposals, index.rs and lib.rs of every generation are left out. They register entry types and forward calls.
- SetTotalSharesActionData is declared but never used, and is left out.
- Single-parent trees are proved. Acyclicity of the action tree is not.
- `get_collective_creator`'s panic on a missing creator is returned as an error value.
- CogovAction.GetActions and Plove2Action.GetActions read each action through its latest version, as `get_links_and_load_type` does.
- The hdk's `get_links_and_load_type` is not part of this model. `LinksAndLoadType` follows its classic implementation: each link target is read through its latest version, a missing entry panics in `unwrap`, and a target that does not convert to the requested type is dropped (`filter_map(Result::ok)`). This governs CogovAction.GetActions, CogovCollective.GetCollectiveCreator, CogovCollective.GetCollectivePeople and PloveCollective.GetCollectivePeople.
- Reads never fail for a reason of the host's own (network, missing authority). The store answers every `get`, `get_links` and `get_entry`; only what it holds decides the result. The members below are affected.
- Plove2Collective.ResolveAdmin: a failed `get` of the given admin (zomes/protocol_love/src/collective.rs:146, the `?`) is not modelled. The model only finds the admin or does not, and never aborts there without writing.
- Plove2Person.GetPerson: a failed host `get` (zomes/protocol_love/src/person.rs:39) is not modelled. An absent or non-Person entry gives "person hash not found".
- Plove2Collective.GetCollective: a failed host `get` (zomes/protocol_love/src/collective.rs:204) is not modelled. An absent or non-Collective entry gives "collective hash not found".
- Plove2Collective.SetCollectiveName: a failed host `get` (zomes/protocol_love/src/collective.rs:225) is not modelled. An absent or non-Collective entry gives "Could not find collective".
- Plove2Collective.ValidateUpsertCollective: a failed `get` of the admin inside validation (zomes/protocol_love/src/collective.rs:98) is not modelled.
- PloveCollective.GetCollectivePeople: the untagged `get_links_with_options(...)?` before the load (zomes/protocol-love/code/src/collective.rs:267-272) is not modelled as failing, so no error escapes without the "get_collective_people: " breadcrumb.
- Lines that do not type-check in the source are modelled by their evident intent:
  - zomes/protocol_love/src/action.rs:119-121: collect the loads, then reverse.
  - zomes/protocol_love/src/collective.rs:150-151: use the loaded admin.
  - zomes/protocol_love/src/ledger.rs:50-51: `t(tag, result)`, with the tag still prefixed.

## Findings

| source | as written | input that shows it | evidently intended | confidence | as-written member | corrected member |
|---|---|---|---|---|---|---|
| zomes/protocol_love/src/collective.rs:159-172 | `create_collective` commits `admin_entry_hash` as supplied, and `validate_upsert_collective` (line 111) refuses a collective without one | `create_collective` with no `admin_entry_hash`: the admin person is created, then the collective is refused with "No admin_entry_hash" | commit the collective with the hash of the admin just created | not executed | Plove2Collective.NoAdminRefused | Plove2Collective.CorrectedAdmitted |
| zomes/protocol_love/src/collective.rs:259-270 | `get_collective_people` queries the tag `collective_person`, but `add_collective_person` (lines 324-328) links with the tag `add_collective_person` | create a collective with a given admin, then `get_collective_people`: the admin is not listed | query the tag the links carry | not executed | Plove2Collective.AddPersonUnlisted | Plove2Collective.AddPersonListed |
