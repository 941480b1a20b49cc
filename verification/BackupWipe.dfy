/** The wipe before a full restore: every record of one tenant is deleted, listing by listing. */
module BackupWipe {
  import opened Rows
  import opened Text
  import opened Store
  import opened StoreValid
  import opened StoreIsolation
  import opened Backup
  import opened BackupScope

  const NOTHING := Slice(map[], map[], map[], map[], map[], map[], map[], [])

  function WipeTickets(s: Db, b: string, ids: seq<string>): Db {
    if ids == [] then s else DeleteTicket(WipeTickets(s, b, ids[..|ids| - 1]), b, ids[|ids| - 1]).db
  }
  function WipeRules(s: Db, b: string, ids: seq<string>): Db {
    if ids == [] then s else DeleteRule(WipeRules(s, b, ids[..|ids| - 1]), b, ids[|ids| - 1]).db
  }
  function WipeTags(s: Db, b: string, ids: seq<string>): Db {
    if ids == [] then s else DeleteTag(WipeTags(s, b, ids[..|ids| - 1]), b, ids[|ids| - 1]).db
  }
  function WipeMailboxes(s: Db, b: string, ids: seq<string>): Db {
    if ids == [] then s else DeleteMailbox(WipeMailboxes(s, b, ids[..|ids| - 1]), b, ids[|ids| - 1], true).db
  }

  /** The ids of one tenant's rows, as the listings answer them. */
  datatype Inventory = Inventory(tickets: seq<string>, rules: seq<string>, tags: seq<string>, mailboxes: seq<string>)

  predicate Complete(s: Db, b: string, v: Inventory) {
    && (forall k :: k in s.tickets && s.tickets[k].tenant == b ==> k in v.tickets)
    && (forall k :: k in s.rules && s.rules[k].tenant == b ==> k in v.rules)
    && (forall k :: k in s.tags && s.tags[k].tenant == b ==> k in v.tags)
    && (forall k :: k in s.mailboxes && s.mailboxes[k].tenant == b ==> k in v.mailboxes)
  }

  function Wipe(s: Db, b: string, v: Inventory): Db {
    WipeMailboxes(WipeTags(WipeRules(WipeTickets(s, b, v.tickets), b, v.rules), b, v.tags), b, v.mailboxes)
  }

  lemma {:induction false} TicketsWiped(s: Db, b: string, ids: seq<string>)
    ensures var e := WipeTickets(s, b, ids);
            && e.rules == s.rules && e.tags == s.tags && e.mailboxes == s.mailboxes
            && forall k :: k in e.tickets ==>
              k in s.tickets && e.tickets[k] == s.tickets[k] && (s.tickets[k].tenant == b ==> k !in ids)
  {
    if ids != [] {
      TicketsWiped(s, b, ids[..|ids| - 1]);
      assert ids == ids[..|ids| - 1] + [ids[|ids| - 1]];
    }
  }

  lemma {:induction false} RulesWiped(s: Db, b: string, ids: seq<string>)
    ensures var e := WipeRules(s, b, ids);
            && e == s.(rules := e.rules)
            && forall k :: k in e.rules ==>
              k in s.rules && e.rules[k] == s.rules[k] && (s.rules[k].tenant == b ==> k !in ids)
  {
    if ids != [] {
      RulesWiped(s, b, ids[..|ids| - 1]);
      assert ids == ids[..|ids| - 1] + [ids[|ids| - 1]];
    }
  }

  lemma {:induction false} TagsWiped(s: Db, b: string, ids: seq<string>)
    ensures var e := WipeTags(s, b, ids);
            && e == s.(tags := e.tags, links := e.links)
            && forall k :: k in e.tags ==>
              k in s.tags && e.tags[k] == s.tags[k] && (s.tags[k].tenant == b ==> k !in ids)
  {
    if ids != [] {
      TagsWiped(s, b, ids[..|ids| - 1]);
      assert ids == ids[..|ids| - 1] + [ids[|ids| - 1]];
    }
  }

  lemma {:induction false} MailboxesWiped(s: Db, b: string, ids: seq<string>)
    ensures var e := WipeMailboxes(s, b, ids);
            && e == s.(mailboxes := e.mailboxes, tickets := e.tickets) && e.tickets.Keys == s.tickets.Keys
            && (forall k :: k in e.tickets ==> e.tickets[k].tenant == s.tickets[k].tenant)
            && forall k :: k in e.mailboxes ==>
                 k in s.mailboxes && e.mailboxes[k] == s.mailboxes[k] && (s.mailboxes[k].tenant == b ==> k !in ids)
  {
    hide DeleteMailbox;
    if ids != [] {
      MailboxesWiped(s, b, ids[..|ids| - 1]);
      assert ids == ids[..|ids| - 1] + [ids[|ids| - 1]];
      MailboxDropped(WipeMailboxes(s, b, ids[..|ids| - 1]), b, ids[|ids| - 1]);
    }
  }

  lemma MailboxDropped(s: Db, b: string, id: string)
    ensures var e := DeleteMailbox(s, b, id, true).db;
            && e == s.(mailboxes := e.mailboxes, tickets := e.tickets) && e.tickets.Keys == s.tickets.Keys
            && (forall k :: k in e.tickets ==> e.tickets[k].tenant == s.tickets[k].tenant)
            && forall k :: k in e.mailboxes ==>
                 k in s.mailboxes && e.mailboxes[k] == s.mailboxes[k] && (s.mailboxes[k].tenant == b ==> k != id)
  {
    hide MailboxUsed;
  }

  // ---------------------------------------------- only the tenant is touched

  lemma {:induction false} WipeTicketsConfined(cs: Casing, s: Db, b: string, ids: seq<string>)
    requires Valid(cs, s)
    ensures Confined(cs, b, s, WipeTickets(s, b, ids))
  {
    hide Valid, Of, DeleteTicket;
    if ids != [] {
      var m := WipeTickets(s, b, ids[..|ids| - 1]);
      WipeTicketsConfined(cs, s, b, ids[..|ids| - 1]);
      OpConfined(cs, m, OpDeleteTicket(b, ids[|ids| - 1]));
      ConfinedTwice(cs, b, s, m, WipeTickets(s, b, ids));
    }
  }

  lemma {:induction false} WipeRulesConfined(cs: Casing, s: Db, b: string, ids: seq<string>)
    requires Valid(cs, s)
    ensures Confined(cs, b, s, WipeRules(s, b, ids))
  {
    hide Valid, Of, DeleteRule;
    if ids != [] {
      var m := WipeRules(s, b, ids[..|ids| - 1]);
      WipeRulesConfined(cs, s, b, ids[..|ids| - 1]);
      OpConfined(cs, m, OpDeleteRule(b, ids[|ids| - 1]));
      ConfinedTwice(cs, b, s, m, WipeRules(s, b, ids));
    }
  }

  lemma {:induction false} WipeTagsConfined(cs: Casing, s: Db, b: string, ids: seq<string>)
    requires Valid(cs, s)
    ensures Confined(cs, b, s, WipeTags(s, b, ids))
  {
    hide Valid, Of, DeleteTag;
    if ids != [] {
      var m := WipeTags(s, b, ids[..|ids| - 1]);
      WipeTagsConfined(cs, s, b, ids[..|ids| - 1]);
      OpConfined(cs, m, OpDeleteTag(b, ids[|ids| - 1]));
      ConfinedTwice(cs, b, s, m, WipeTags(s, b, ids));
    }
  }

  lemma {:induction false} WipeMailboxesConfined(cs: Casing, s: Db, b: string, ids: seq<string>)
    requires Valid(cs, s)
    ensures Confined(cs, b, s, WipeMailboxes(s, b, ids))
  {
    hide Valid, Of, DeleteMailbox;
    if ids != [] {
      var m := WipeMailboxes(s, b, ids[..|ids| - 1]);
      WipeMailboxesConfined(cs, s, b, ids[..|ids| - 1]);
      OpConfined(cs, m, OpDeleteMailbox(b, ids[|ids| - 1], true));
      ConfinedTwice(cs, b, s, m, WipeMailboxes(s, b, ids));
    }
  }

  /** Without tickets of b there are no children of b. */
  lemma NoTicketsNoChildren(cs: Casing, s: Db, b: string)
    requires References(s)
    requires forall k :: k in s.tickets ==> s.tickets[k].tenant != b
    requires forall k :: k in s.tags ==> s.tags[k].tenant != b
    requires forall k :: k in s.rules ==> s.rules[k].tenant != b
    requires forall k :: k in s.mailboxes ==> s.mailboxes[k].tenant != b
    ensures Of(s, b) == NOTHING
  {
    NothingMine(s.tickets, TicketOwner, b);
    NothingMine(s.comments, CommentOwner, b);
    NothingMine(s.attachments, AttachmentOwner, b);
    NothingMine(s.tags, TagOwner, b);
    NothingMine(s.rules, RuleOwner, b);
    NothingMine(s.mailboxes, MailboxOwner, b);
    NoHistoryOf(s.history, b);
    hide Mine, HistoryOf;
    assert LinksOf(s.links, s.tickets, b) == map[];
  }

  lemma NothingMine<V>(m: map<string, V>, owner: V -> string, b: string)
    requires forall k :: k in m ==> owner(m[k]) != b
    ensures Mine(m, owner, b) == map[]
  {
  }

  /** A wipe leaves nothing of the tenant and everything of the others, and the store stays valid. */
  lemma WipeEmpties(cs: Casing, s: Db, b: string, v: Inventory)
    requires Valid(cs, s) && Complete(s, b, v)
    ensures Confined(cs, b, s, Wipe(s, b, v)) && Of(Wipe(s, b, v), b) == NOTHING
  {
    var m1 := WipeTickets(s, b, v.tickets);
    var m2 := WipeRules(m1, b, v.rules);
    var m3 := WipeTags(m2, b, v.tags);
    var m4 := WipeMailboxes(m3, b, v.mailboxes);
    TicketsWiped(s, b, v.tickets);
    RulesWiped(m1, b, v.rules);
    TagsWiped(m2, b, v.tags);
    MailboxesWiped(m3, b, v.mailboxes);
    assert Confined(cs, b, s, m4) by {
      hide Valid, Of, Confined, WipeTickets, WipeRules, WipeTags, WipeMailboxes, Complete;
      WipeTicketsConfined(cs, s, b, v.tickets);
      Chain(cs, b, s, s, m1);
      WipeRulesConfined(cs, m1, b, v.rules);
      Chain(cs, b, s, m1, m2);
      WipeTagsConfined(cs, m2, b, v.tags);
      Chain(cs, b, s, m2, m3);
      WipeMailboxesConfined(cs, m3, b, v.mailboxes);
      Chain(cs, b, s, m3, m4);
    }
    ConfinedValid(cs, b, s, m4);
    hide WipeTickets, WipeRules, WipeTags, WipeMailboxes, KeysMatch, Uniqueness, Counted, Of, TicketRefs,
      CommentRefs, AttachmentRefs, LinkRefs, HistoryRefs;
    NoTicketsNoChildren(cs, m4, b);
  }
}
