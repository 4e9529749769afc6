/** The provider listing of `actions/AIIntegrationProviders.php`: what the
    front end learns about the configured providers. Only enabled providers
    appear, each with its name, model and endpoint and whether it has a key;
    the key itself never leaves the server. */
module ProviderListing {
  import opened Wrappers
  import opened Php
  import opened Config
  import ConfigManager

  /** One listed provider. */
  datatype Listed = Listed(name: string, model: string, endpoint: string, hasApiKey: bool)

  /** The listing's view of one entry. */
  function Project(name: string, e: ProviderEntry): (l: Listed)
    ensures l.name == name && l.hasApiKey == e.HasApiKey()
    ensures l.model == e.model.GetOr("") && l.endpoint == e.endpoint.GetOr("")
  {
    Listed(name, e.model.GetOr(""), e.endpoint.GetOr(""), e.HasApiKey())
  }

  /** The `foreach` over the providers: the enabled ones, projected, in
      configuration order. */
  function ListEnabled(ps: seq<(string, ProviderEntry)>): (r: seq<Listed>)
    ensures |r| <= |ps|
    ensures DistinctKeys(ps) ==>
              forall l | l in r :: Get(ps, l.name).Some? && Get(ps, l.name).value.Enabled()
                                   && l == Project(l.name, Get(ps, l.name).value)
  {
    if |ps| == 0 then []
    else
      var rest := ListEnabled(ps[1..]);
      GetBeyondHead(ps);
      if ps[0].1.Enabled() then [Project(ps[0].0, ps[0].1)] + rest else rest
  }

  /** With distinct keys, a key of the tail is looked up in the tail. */
  lemma GetBeyondHead<V>(ps: seq<(string, V)>)
    requires |ps| > 0
    ensures DistinctKeys(ps) ==> forall k | k in Keys(ps[1..]) :: Get(ps, k) == Get(ps[1..], k)
  {
  }

  /** Listing a concatenation lists the first part, then the second: the
      listing is a filter that keeps configuration order. */
  lemma {:induction false} ListEnabledAppend(a: seq<(string, ProviderEntry)>, b: seq<(string, ProviderEntry)>)
    ensures ListEnabled(a + b) == ListEnabled(a) + ListEnabled(b)
    decreases |a|
  {
    if |a| > 0 {
      assert (a + b)[1..] == a[1..] + b;
      ListEnabledAppend(a[1..], b);
    } else {
      assert a + b == b;
    }
  }

  /** Every enabled provider of a configuration is listed. */
  lemma {:induction false} EnabledAreListed(ps: Providers, name: string)
    requires Get(ps, name).Some? && Get(ps, name).value.Enabled()
    ensures Project(name, Get(ps, name).value) in ListEnabled(ps)
    decreases |ps|
  {
    var t: Providers := ps[1..];
    if ps[0].0 != name {
      EnabledAreListed(t, name);
    }
  }

  /** The listing depends on the keys only through whether they are
      non-empty: configurations that differ only in key contents list the
      same. */
  lemma {:induction false} ListingHidesKeys(a: seq<(string, ProviderEntry)>, b: seq<(string, ProviderEntry)>)
    requires |a| == |b|
    requires forall i | 0 <= i < |a| ::
               && a[i].0 == b[i].0
               && a[i].1.(apiKey := None) == b[i].1.(apiKey := None)
               && (a[i].1.HasApiKey() <==> b[i].1.HasApiKey())
    ensures ListEnabled(a) == ListEnabled(b)
    decreases |a|
  {
    if |a| > 0 {
      assert a[0].1.enabled == b[0].1.enabled by {
        assert a[0].1.(apiKey := None).enabled == b[0].1.(apiKey := None).enabled;
      }
      ListingHidesKeys(a[1..], b[1..]);
      assert Project(a[0].0, a[0].1) == Project(b[0].0, b[0].1) by {
        assert a[0].1.(apiKey := None).model == b[0].1.(apiKey := None).model;
        assert a[0].1.(apiKey := None).endpoint == b[0].1.(apiKey := None).endpoint;
      }
    }
  }

  /** `resolveQuickActions`: the four defaults, all on, with the stored
      toggles merged over them. */
  function ResolveQuickActions(stored: QuickActions): (qa: QuickActions)
    ensures forall k :: Get(qa, k) == if Get(stored, k).Some? then Get(stored, k) else Get(DefaultQuickActions, k)
    ensures |DefaultQuickActions| <= |qa| && Keys(qa)[..|DefaultQuickActions|] == QuickActionNames
  {
    var qa := Merge(DefaultQuickActions, stored);
    forall k ensures Get(qa, k) == if Get(stored, k).Some? then Get(stored, k) else Get(DefaultQuickActions, k) {
      GetMerge(DefaultQuickActions, stored, k);
    }
    MergeKeepsBaseOrder(DefaultQuickActions, stored);
    qa
  }

  /** Every known quick action is on unless the stored toggles turn it
      off; a stored toggle for an unknown action is kept. */
  lemma QuickActionDefaults(stored: QuickActions, action: string)
    ensures action in QuickActionNames && Get(stored, action).None? ==> Get(ResolveQuickActions(stored), action) == Some(true)
    ensures Get(stored, action).Some? ==> Get(ResolveQuickActions(stored), action) == Get(stored, action)
    ensures action !in QuickActionNames && Get(stored, action).None? ==> Get(ResolveQuickActions(stored), action).None?
  {
    if action in QuickActionNames {
      QuickActionNamesDistinct();
      var i :| 0 <= i < |QuickActionNames| && QuickActionNames[i] == action;
      GetAt(DefaultQuickActions, i);
    } else {
      assert Keys(DefaultQuickActions) == QuickActionNames;
    }
  }

  /** The listing's reply. */
  datatype ProviderList = ProviderList(
    providers: seq<Listed>,
    defaultProvider: string,
    quickActions: QuickActions,
    isSuperAdmin: bool)

  /** `doAction`: the listing built from the configuration file, for a
      caller of the given user type. */
  function ListProviders(file: FileStore, userType: int): (r: ProviderList)
    ensures r.providers == ListEnabled(ReadConfigFile(file).ProviderList())
    ensures r.defaultProvider == ReadConfigFile(file).defaultProvider.Or(OpenAI)
    ensures r.quickActions == ResolveQuickActions(ReadConfigFile(file).quickActions.Or([]))
    ensures r.isSuperAdmin <==> userType == ConfigManager.SuperAdmin
  {
    var d := ReadConfigFile(file);
    ProviderList(ListEnabled(d.ProviderList()), d.defaultProvider.Or(OpenAI),
                 ResolveQuickActions(d.quickActions.Or([])), userType == ConfigManager.SuperAdmin)
  }

  /** A missing configuration file, or one whose content does not decode
      to an array, lists no provider, names `openai` as default and turns
      every quick action on. */
  lemma NoFileListsNothing(file: FileStore, userType: int)
    requires !(file.ConfigFile? && file.decoded.ArrayDoc?)
    ensures var r := ListProviders(file, userType);
            && r.providers == []
            && r.defaultProvider == OpenAI
            && r.quickActions == DefaultQuickActions
  {
    var qa := ResolveQuickActions([]);
    assert Keys(qa) == QuickActionNames by {
      assert Merge(DefaultQuickActions, []) == DefaultQuickActions;
    }
  }
}
