/**
 Which application's login a browser's host starts: validation compares hosts as written, the
 lookup folds case and drops the port.
 */
module Hosts {
  import opened Wrappers
  import opened Text
  import opened Schema
  import opened Config
  import opened Samples

  /** Every host an application lists starts that application's login. */
  ghost predicate HostsServe(apps: seq<App>) {
    forall i, h :: 0 <= i < |apps| && h in apps[i].hosts ==> AppForHost(apps, h) == Some(apps[i])
  }

  /** Every host is listed without its port too. */
  ghost predicate ListedBare(apps: seq<App>) {
    forall i, h :: 0 <= i < |apps| && h in apps[i].hosts ==>
      exists g :: g in apps[i].hosts && ToLower(g) == ToLower(HostOnly(h))
  }

  /** No application lists, in other letter case or for another port, a host of a later one. */
  ghost predicate FoldedApart(apps: seq<App>) {
    forall j, i, g, h ::
      0 <= j < i < |apps| && g in apps[j].hosts && h in apps[i].hosts && ToLower(g) == ToLower(HostOnly(h)) ==>
        apps[j] == apps[i]
  }

  /** Hosts start their own applications' logins exactly when listed bare and apart once folded. */
  lemma HostsServeExactly(apps: seq<App>)
    ensures HostsServe(apps) <==> ListedBare(apps) && FoldedApart(apps)
  {
    if HostsServe(apps) {
      forall i, h | 0 <= i < |apps| && h in apps[i].hosts
        ensures exists g :: g in apps[i].hosts && ToLower(g) == ToLower(HostOnly(h))
      {
        assert AppForHost(apps, h) == Some(apps[i]) && ListsHost(apps[i], h);
      }
      forall j, i, g, h | 0 <= j < i < |apps| && g in apps[j].hosts && h in apps[i].hosts
                          && ToLower(g) == ToLower(HostOnly(h))
        ensures apps[j] == apps[i]
      {
        ServedFromEarlier(apps, j, i, g, h);
      }
    }
    if ListedBare(apps) && FoldedApart(apps) {
      forall i, h | 0 <= i < |apps| && h in apps[i].hosts ensures AppForHost(apps, h) == Some(apps[i]) {
        ApartServes(apps, i, h);
      }
    }
  }

  lemma {:induction false} FoldedFindTheSame(apps: seq<App>, g: string, h: string)
    requires ToLower(HostOnly(g)) == ToLower(HostOnly(h))
    ensures AppForHost(apps, g) == AppForHost(apps, h)
  {
    if apps != [] {
      assert ListsHost(apps[0], g) <==> ListsHost(apps[0], h);
      FoldedFindTheSame(apps[1..], g, h);
    }
  }

  /** A host without a port is its own host. */
  lemma BareHost(g: string, h: string)
    requires ToLower(g) == ToLower(HostOnly(h))
    ensures HostOnly(g) == g
  {
    LowerKeeps(g, ':');
    LowerKeeps(HostOnly(h), ':');
    SplitWithout(g, ':');
  }

  /** The host of a later application that an earlier one lists folded: both are the one served. */
  lemma ServedFromEarlier(apps: seq<App>, j: nat, i: nat, g: string, h: string)
    requires HostsServe(apps) && j < i < |apps| && g in apps[j].hosts && h in apps[i].hosts
    requires ToLower(g) == ToLower(HostOnly(h))
    ensures apps[j] == apps[i]
  {
    assert AppForHost(apps, h) == Some(apps[i]) && ListsHost(apps[j], h);
    BareHost(g, h);
    FoldedFindTheSame(apps, g, h);
    assert AppForHost(apps, g) == Some(apps[j]);
  }

  lemma ApartServes(apps: seq<App>, i: nat, h: string)
    requires ListedBare(apps) && FoldedApart(apps) && i < |apps| && h in apps[i].hosts
    ensures AppForHost(apps, h) == Some(apps[i])
  {
    assert ListsHost(apps[i], h);
    var found := AppForHost(apps, h).value;
    var k :| 0 <= k < |apps| && apps[k] == found && ListsHost(apps[k], h)
             && forall j :: 0 <= j < k ==> !ListsHost(apps[j], h);
    if k < i {
      var g :| g in apps[k].hosts && ToLower(g) == ToLower(HostOnly(h));
    }
  }

  lemma {:induction false} ListedIsClaimed(apps: seq<App>, j: nat, h: string)
    requires j < |apps| && h in apps[j].hosts
    ensures h in AllHosts(apps)
  {
    var n := |apps| - 1;
    if j < n {
      ListedIsClaimed(apps[..n], j, h);
    }
  }

  lemma NoneInBoth(a: seq<string>, b: seq<string>, h: string)
    requires NoRepeats(a + b)
    ensures NoRepeats(a)
    ensures h in a ==> h !in b
  {
    assert a == (a + b)[..|a|] && b == (a + b)[|a|..];
  }

  /** In a valid document no two applications list one host. */
  lemma {:induction false} OneClaim(apps: seq<App>, j: nat, i: nat, h: string)
    requires NoRepeats(AllHosts(apps)) && j < i < |apps| && h in apps[j].hosts
    ensures h !in apps[i].hosts
  {
    var n := |apps| - 1;
    NoneInBoth(AllHosts(apps[..n]), apps[n].hosts, h);
    if i == n {
      ListedIsClaimed(apps[..n], j, h);
    } else {
      OneClaim(apps[..n], j, i, h);
    }
  }

  /** Every host is written in lower case, without a port. */
  ghost predicate WrittenFolded(apps: seq<App>) {
    forall i, h :: 0 <= i < |apps| && h in apps[i].hosts ==> h == ToLower(h) && ':' !in h
  }

  lemma FoldedIsBare(apps: seq<App>)
    requires WrittenFolded(apps)
    ensures ListedBare(apps)
  {
    forall i, h | 0 <= i < |apps| && h in apps[i].hosts
      ensures exists g :: g in apps[i].hosts && ToLower(g) == ToLower(HostOnly(h))
    {
      SplitWithout(h, ':');
    }
  }

  lemma ApartAt(apps: seq<App>, j: nat, i: nat, g: string, h: string)
    requires NoRepeats(AllHosts(apps)) && j < i < |apps| && g in apps[j].hosts && h in apps[i].hosts
    requires g == ToLower(g) && h == ToLower(h) && ':' !in h
    ensures ToLower(g) != ToLower(HostOnly(h))
  {
    OneClaim(apps, j, i, g);
    SplitWithout(h, ':');
  }

  lemma FoldedIsApart(apps: seq<App>)
    requires NoRepeats(AllHosts(apps)) && WrittenFolded(apps)
    ensures FoldedApart(apps)
  {
    forall j, i, g, h | 0 <= j < i < |apps| && g in apps[j].hosts && h in apps[i].hosts
      ensures ToLower(g) != ToLower(HostOnly(h))
    {
      ApartAt(apps, j, i, g, h);
    }
  }

  /** So what validation checks suffices for hosts written in lower case and without a port. */
  lemma ValidHostsServe(c: Config)
    requires Valid(c) && WrittenFolded(c.applications)
    ensures HostsServe(c.applications)
  {
    FoldedIsBare(c.applications);
    FoldedIsApart(c.applications);
    HostsServeExactly(c.applications);
  }

  lemma TwoHostsClaimed(first: App, second: App, g: string, h: string)
    requires first.name != "" && second.name != "" && first.hosts == [g] && second.hosts == [h] && g != h
    ensures AllHosts([first, second]) == [g, h]
  {
    var apps := [first, second];
    assert apps[..1] == [first] && [first][..0] == [];
    assert AllHosts([first]) == AllHosts([]) + [g];
  }

  lemma FirstListsIt(first: App, second: App, g: string, h: string)
    requires first.hosts == [g] && ToLower(g) == ToLower(h) && ':' !in h
    ensures AppForHost([first, second], h) == Some(first)
  {
    SplitWithout(h, ':');
    assert g in first.hosts && ListsHost(first, h);
  }

  lemma TwoHostsValid(c: Config, first: App, second: App, g: string, h: string)
    requires Valid(c) && first.name != "" && second.name != "" && g != h
    requires first.hosts == [g] && second.hosts == [h]
    ensures Valid(c.(applications := [first, second]))
  {
    TwoHostsClaimed(first, second, g, h);
  }

  /** And not otherwise: a valid document whose second application's host starts the first one's login. */
  lemma FoldedHostTaken() returns (c: Config, h: string)
    ensures Valid(c) && |c.applications| == 2 && h in c.applications[1].hosts
    ensures c.applications[0] != c.applications[1] && AppForHost(c.applications, h) == Some(c.applications[0])
  {
    var first, second := App("shop", "", ["s"], false), App("portal", "", ["S"], true);
    var page := Rule("page", [], [], "/page", true, false, UndefinedType(""), FromPrincipal, UndefinedPermission(""),
                     "", false, false, 0, EitherMode, AtLeastAsFresh, []);
    SampleValid([], [page]);
    TwoHostsValid(Sample([], [page]), first, second, "s", "S");
    c, h := Sample([], [page]).(applications := [first, second]), "S";
    assert ToLower("s") == ToLower("S");
    FirstListsIt(first, second, "s", "S");
  }
}
