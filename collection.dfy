/** The client-rule collection: an ordered list of rule objects (list order is
    match priority), the snapshot of the last server-confirmed rules, and the
    option lists the rule editor offers. */
module Collection {
  import opened Wrappers
  import opened RuleValues
  import opened Choices

  /** One access rule. Its fields are updated in place: the collection writes
      `priority`, and `save` puts it back in view mode. */
  class ClientRule {
    var key: string
    var name: string
    var address: string
    var account: Account
    var priority: int
    var mode: Mode

    /** A rule built from a server record, in the given mode. */
    constructor (record: RuleRecord, mode: Mode)
      ensures Current() == record && this.mode == mode
    {
      key := record.key;
      name := record.name;
      address := record.address;
      account := record.account;
      priority := record.priority;
      this.mode := mode;
    }

    /** The rule's serialised form (`rule.current()`). */
    function Current(): (r: RuleRecord)
      reads this
      ensures r.key == key && r.name == name && r.address == address
      ensures r.account == account && r.priority == priority
    {
      RuleRecord(key, name, address, account, priority)
    }

    function State(): RuleState
      reads this
    {
      RuleState(Current(), mode)
    }

    /** Leaves edit mode; the field values stay as they are. */
    method Save()
      modifies this
      ensures State() == old(State()).(mode := View)
    {
      mode := View;
    }
  }

  /** The state of each rule object in `rules`, in order. */
  function StatesOf(rules: seq<ClientRule>): (s: seq<RuleState>)
    reads rules
    ensures |s| == |rules|
    ensures forall i :: 0 <= i < |rules| ==> s[i] == rules[i].State()
  {
    seq(|rules|, i requires 0 <= i < |rules| reads rules => rules[i].State())
  }

  predicate Distinct(rules: seq<ClientRule>) {
    forall i, j :: 0 <= i < j < |rules| ==> rules[i] != rules[j]
  }

  /** Splicing an element out of a list of distinct rules leaves distinct
      rules, without that element. */
  lemma RemoveAtDistinct(rules: seq<ClientRule>, k: nat)
    requires k < |rules| && Distinct(rules)
    ensures Distinct(RemoveAt(rules, k)) && rules[k] !in RemoveAt(rules, k)
  {
    var r := RemoveAt(rules, k);
    forall i | 0 <= i < |r| ensures r[i] != rules[k] {
      assert r[i] == rules[if i < k then i else i + 1];
    }
  }

  lemma StatesOfRemoveAt(rules: seq<ClientRule>, k: nat)
    requires k < |rules|
    ensures StatesOf(RemoveAt(rules, k)) == RemoveAt(StatesOf(rules), k)
  {
  }

  class ClientRuleCollection {
    var availableKeys: Option<seq<Choice>>
    var availableNames: Option<seq<Choice>>
    var availableAddresses: Option<seq<Choice>>
    var accounts: Option<seq<Choice>>
    var accountsById: Option<map<string, Choice>>
    /** The last server-confirmed rules; None until the first update. */
    var original: Option<seq<RuleRecord>>
    /** False while `rules` is still null, before the first update. */
    var loaded: bool
    var rules: seq<ClientRule>

    ghost predicate Valid()
      reads this
    {
      (!loaded ==> rules == []) && Distinct(rules)
    }

    function States(): seq<RuleState>
      reads this, rules
    {
      StatesOf(rules)
    }

    /** Everything the collection holds besides its rules and snapshot. */
    function Options(): (Option<seq<Choice>>, Option<seq<Choice>>, Option<seq<Choice>>, Option<seq<Choice>>, Option<map<string, Choice>>)
      reads this
    {
      (availableKeys, availableNames, availableAddresses, accounts, accountsById)
    }

    /** Every list starts out null. */
    constructor ()
      ensures Valid() && !loaded && rules == [] && original == None
      ensures Options() == (None, None, None, None, None)
    {
      availableKeys, availableNames, availableAddresses := None, None, None;
      accounts, accountsById := None, None;
      original := None;
      loaded := false;
      rules := [];
    }

    /** Puts every rule back in view mode; their fields are not touched. */
    method Reset()
      requires Valid()
      modifies rules
      ensures Valid()
      ensures States() == Viewed(old(States()))
    {
      var i := 0;
      while i < |rules|
        invariant 0 <= i <= |rules|
        invariant forall k :: 0 <= k < i ==> rules[k].State() == old(rules[k].State()).(mode := View)
        invariant forall k :: i <= k < |rules| ==> rules[k].State() == old(rules[k].State())
      {
        rules[i].Save();
        i := i + 1;
      }
    }

    /** Sets each rule's priority to its index plus one. */
    method UpdatePriorities()
      requires Valid() && loaded
      modifies rules
      ensures Valid()
      ensures States() == Renumbered(old(States()))
    {
      for i := 0 to |rules|
        invariant forall k :: 0 <= k < i ==> rules[k].State() == WithPriority(old(rules[k].State()), k + 1)
        invariant forall k :: i <= k < |rules| ==> rules[k].State() == old(rules[k].State())
      {
        rules[i].priority := i + 1;
      }
    }

    /** Appends a blank rule in edit mode after putting every rule in view mode. */
    method Create()
      requires Valid() && loaded
      modifies this, rules
      ensures Valid() && loaded
      ensures |rules| == |old(rules)| + 1 && rules[..|old(rules)|] == old(rules)
      ensures fresh(rules[|old(rules)|])
      ensures States() == Created(old(States()))
      ensures original == old(original) && Options() == old(Options())
    {
      Reset();
      var rule := new ClientRule(BlankRecord(|rules| + 1), Edit);
      rules := rules + [rule];
    }

    /** Removes `rule` if it is in the list and renumbers the rest; a rule that
        is not in the list changes nothing. */
    method Delete(rule: ClientRule)
      requires Valid() && loaded
      modifies this, rules
      ensures Valid() && loaded
      ensures original == old(original) && Options() == old(Options())
      ensures rule.State() == old(rule.State())
      ensures rule !in old(rules) ==> rules == old(rules) && States() == old(States())
      ensures rule in old(rules) ==>
                var k := IndexOf(old(rules), rule);
                && rules == RemoveAt(old(rules), k)
                && rule !in rules
                && States() == Deleted(old(States()), k)
    {
      var index := IndexOf(rules, rule);
      if index == -1 {
        return;
      }
      ghost var before := States();
      RemoveAtDistinct(rules, index);
      StatesOfRemoveAt(rules, index);
      rules := RemoveAt(rules, index);
      UpdatePriorities();
    }

    /** Replaces the rules with new rule objects, one per record and in view
        mode, and takes the records as the new snapshot. A null list (None)
        gives an empty rule list and a null snapshot. */
    method UpdateRules(records: Option<seq<RuleRecord>>)
      modifies this
      ensures Valid() && loaded && original == records
      ensures forall i :: 0 <= i < |rules| ==> fresh(rules[i])
      ensures States() == Loaded(records.GetOr([]))
      ensures Options() == old(Options())
    {
      var list := records.GetOr([]);
      var built: seq<ClientRule> := [];
      var i := 0;
      while i < |list|
        invariant 0 <= i <= |list| && |built| == i
        invariant Distinct(built)
        invariant Options() == old(Options())
        invariant forall k :: 0 <= k < i ==> fresh(built[k])
        invariant forall k :: 0 <= k < i ==> built[k].State() == RuleState(list[k], View)
      {
        var rule := new ClientRule(list[i], View);
        built := built + [rule];
        i := i + 1;
      }
      original := records;
      rules := built;
      loaded := true;
    }

    /** Rebuilds the rules from the snapshot and renumbers them; the snapshot
        itself stays as it is. */
    method Discard()
      modifies this
      ensures Valid() && loaded
      ensures original == old(original) && Options() == old(Options())
      ensures States() == Renumbered(Loaded(original.GetOr([])))
      ensures forall i :: 0 <= i < |rules| ==> fresh(rules[i])
    {
      UpdateRules(original);
      UpdatePriorities();
    }

    /** Sends every rule's serialised form; on success (`reply` is the server's
        canonical list) adopts the reply as rules and snapshot, on failure
        rejects and changes nothing. */
    method Save(reply: Option<seq<RuleRecord>>) returns (sent: seq<RuleRecord>, outcome: Outcome<string>)
      requires Valid()
      modifies this
      ensures sent == Records(old(States()))
      ensures reply.None? ==> outcome == Fail("Unable to update client rules")
                              && rules == old(rules) && loaded == old(loaded) && original == old(original)
      ensures reply.Some? ==> outcome == Pass && loaded && original == reply
                              && States() == Loaded(reply.value)
                              && forall i :: 0 <= i < |rules| ==> fresh(rules[i])
      ensures Valid() && Options() == old(Options())
    {
      sent := Records(States());
      if reply.None? {
        outcome := Fail("Unable to update client rules");
        return;
      }
      UpdateRules(reply);
      outcome := Pass;
    }

    /** Builds the key, name and address option lists from the clients. */
    method UpdateClients(clients: seq<Client>)
      modifies this
      ensures availableKeys == Some(Available(clients, KeyAttribute))
      ensures availableNames == Some(Available(clients, NameAttribute))
      ensures availableAddresses == Some(Available(clients, AddressAttribute))
      ensures accounts == old(accounts) && accountsById == old(accountsById)
      ensures rules == old(rules) && loaded == old(loaded) && original == old(original)
    {
      availableKeys := Some(Available(clients, KeyAttribute));
      availableNames := Some(Available(clients, NameAttribute));
      availableAddresses := Some(Available(clients, AddressAttribute));
    }

    /** Builds the account option list and its index by value. */
    method UpdateAccounts(accountList: seq<Choice>)
      modifies this
      ensures accounts == Some(AccountChoices(accountList))
      ensures accountsById == Some(IndexByValue(AccountChoices(accountList)))
      ensures availableKeys == old(availableKeys) && availableNames == old(availableNames)
      ensures availableAddresses == old(availableAddresses)
      ensures rules == old(rules) && loaded == old(loaded) && original == old(original)
    {
      accounts := Some(AccountChoices(accountList));
      accountsById := Some(IndexByValue(accounts.value));
    }

    /** Fetches clients and rules: each reply that arrives is applied, and the
        whole refresh resolves only when both do. When both fail, which reason
        is reported depends on which reply is rejected first. */
    method Refresh(clientsReply: Option<seq<Client>>, rulesReply: Option<seq<RuleRecord>>)
      returns (outcome: Outcome<string>)
      requires Valid()
      modifies this
      ensures Valid()
      ensures clientsReply.Some? ==> availableKeys == Some(Available(clientsReply.value, KeyAttribute))
                                     && availableNames == Some(Available(clientsReply.value, NameAttribute))
                                     && availableAddresses == Some(Available(clientsReply.value, AddressAttribute))
      ensures clientsReply.None? ==> availableKeys == old(availableKeys) && availableNames == old(availableNames)
                                     && availableAddresses == old(availableAddresses)
      ensures rulesReply.Some? ==> loaded && original == rulesReply && States() == Loaded(rulesReply.value)
                                   && forall i :: 0 <= i < |rules| ==> fresh(rules[i])
      ensures rulesReply.None? ==> rules == old(rules) && loaded == old(loaded) && original == old(original)
      ensures accounts == old(accounts) && accountsById == old(accountsById)
      ensures outcome.Pass? <==> clientsReply.Some? && rulesReply.Some?
      ensures clientsReply.None? && rulesReply.Some? ==> outcome == Fail("Unable to retrieve clients")
      ensures clientsReply.Some? && rulesReply.None? ==> outcome == Fail("Unable to retrieve client rules")
      ensures clientsReply.None? && rulesReply.None? ==>
                outcome in {Fail("Unable to retrieve clients"), Fail("Unable to retrieve client rules")}
    {
      if clientsReply.Some? {
        UpdateClients(clientsReply.value);
      }
      if rulesReply.Some? {
        UpdateRules(rulesReply);
      }
      if clientsReply.None? {
        outcome := Fail("Unable to retrieve clients");
      } else if rulesReply.None? {
        outcome := Fail("Unable to retrieve client rules");
      } else {
        outcome := Pass;
      }
    }
  }

  /** Discarding twice leaves the rules as discarding once did. */
  method DiscardTwice(c: ClientRuleCollection) returns (ghost once: seq<RuleState>)
    modifies c
    ensures once == Renumbered(Loaded(old(c.original).GetOr([])))
    ensures c.States() == once && c.original == old(c.original)
    ensures c.Valid() && c.loaded && c.Options() == old(c.Options())
  {
    c.Discard();
    once := c.States();
    c.Discard();
  }

  /** A discard right after a successful save gives back the saved rules
      exactly when the server's priorities are already 1..N; otherwise it
      renumbers them. */
  method SaveThenDiscard(c: ClientRuleCollection, reply: seq<RuleRecord>) returns (ghost saved: seq<RuleState>)
    requires c.Valid()
    modifies c
    ensures saved == Loaded(reply)
    ensures c.States() == Renumbered(saved)
    ensures c.States() == saved <==> Contiguous(Loaded(reply))
  {
    var sent, outcome := c.Save(Some(reply));
    saved := c.States();
    c.Discard();
    RenumberedFixedIffContiguous(Loaded(reply));
  }

  /** A rule object held from before a discard is no longer in the list, so
      deleting it afterwards changes nothing. */
  method DeleteAfterDiscard(c: ClientRuleCollection, held: ClientRule) returns (ghost discarded: seq<RuleState>)
    requires c.Valid() && held in c.rules
    modifies c, c.rules
    ensures held !in c.rules && c.States() == discarded
    ensures discarded == Renumbered(Loaded(old(c.original).GetOr([])))
  {
    c.Discard();
    discarded := c.States();
    c.Delete(held);
  }

  /** A refresh with one client and one rule record: two options per
      attribute list, and one rule with priority 1. */
  method RefreshOneClientOneRule() returns (c: ClientRuleCollection)
    ensures c.availableKeys.Some? && |c.availableKeys.value| == 2
    ensures |c.rules| == 1 && c.rules[0].priority == 1
  {
    c := new ClientRuleCollection();
    var client := Client("k1", "n1", "p", "x", "a1");
    var record := RuleRecord("*", "*", "*", Account("-", "None"), 1);
    var outcome := c.Refresh(Some([client]), Some([record]));
    assert c.States()[0] == RuleState(record, View);
  }
}
