// The list of remote games found by network discovery: initialisation's
// argument checks, the start of discovery in a mode, the rule that admits a
// discovered endpoint into the list, and the lookup of an endpoint by address.
// Sockets, packets and the discovery thread are not modelled; the socket bind
// is an input.

module Discovery {

  /** A discovered game: its address, its TCP port and its player's name. */
  datatype Endpoint = Endpoint(ipAddress: string, tcpPort: int, playerName: string)

  /** The value-initialised endpoint: empty address, port 0, empty name. */
  const DefaultEndpoint: Endpoint := Endpoint("", 0, "")

  /** An endpoint is usable when it has an address and a non-zero port; the name may be empty. */
  predicate IsValid(e: Endpoint)
  {
    e.ipAddress != "" && e.tcpPort != 0
  }

  datatype DiscoveryMode = None | Server | Client

  /** No endpoint occurs twice. */
  predicate Distinct(devices: seq<Endpoint>)
  {
    forall i, j :: 0 <= i < j < |devices| ==> devices[i] != devices[j]
  }

  /** No endpoint carries the local address. */
  predicate NoneLocal(devices: seq<Endpoint>, localIPv4: string)
  {
    forall i :: 0 <= i < |devices| ==> devices[i].ipAddress != localIPv4
  }

  /** The first endpoint with the address `ip`, or the default endpoint when there is none. */
  function FirstWithIP(devices: seq<Endpoint>, ip: string): Endpoint
  {
    if devices == [] then DefaultEndpoint
    else if devices[0].ipAddress == ip then devices[0]
    else FirstWithIP(devices[1..], ip)
  }

  /** `addRemoteToList` as written: duplicates and the local address are kept out. */
  predicate AdmitsAsWritten(devices: seq<Endpoint>, localIPv4: string, remote: Endpoint)
  {
    remote !in devices && remote.ipAddress != localIPv4
  }

  /** The admission rule with invalid endpoints kept out as well. */
  predicate Admits(devices: seq<Endpoint>, localIPv4: string, remote: Endpoint)
  {
    AdmitsAsWritten(devices, localIPv4, remote) && IsValid(remote)
  }

  /** The lookup gives the first endpoint with the address, and the default endpoint when none has it. */
  lemma {:induction false} FirstWithIPRules(devices: seq<Endpoint>, ip: string, k: int)
    ensures (forall i :: 0 <= i < |devices| ==> devices[i].ipAddress != ip) ==> FirstWithIP(devices, ip) == DefaultEndpoint
    ensures 0 <= k < |devices| && devices[k].ipAddress == ip && (forall j :: 0 <= j < k ==> devices[j].ipAddress != ip) ==>
              FirstWithIP(devices, ip) == devices[k]
  {
    if devices != [] {
      FirstWithIPRules(devices[1..], ip, k - 1);
      if devices[0].ipAddress != ip {
        if 0 <= k < |devices| && devices[k].ipAddress == ip && (forall j :: 0 <= j < k ==> devices[j].ipAddress != ip) {
          assert k > 0 && devices[1..][k - 1] == devices[k];
          assert forall j :: 0 <= j < k - 1 ==> devices[1..][j] == devices[j + 1];
        }
        if forall i :: 0 <= i < |devices| ==> devices[i].ipAddress != ip {
          assert forall i :: 0 <= i < |devices[1..]| ==> devices[1..][i] == devices[i + 1];
        }
      } else if 0 <= k < |devices| && (forall j :: 0 <= j < k ==> devices[j].ipAddress != ip) {
        assert k == 0;
      }
    }
  }

  /** The lookup looks past endpoints with other addresses. */
  lemma FirstWithIPAppend(devices: seq<Endpoint>, remote: Endpoint, ip: string)
    ensures FirstWithIP(devices + [remote], ip) ==
              if exists i :: 0 <= i < |devices| && devices[i].ipAddress == ip then FirstWithIP(devices, ip)
              else if remote.ipAddress == ip then remote
              else DefaultEndpoint
  {
    if devices != [] {
      assert (devices + [remote])[1..] == devices[1..] + [remote];
      FirstWithIPAppend(devices[1..], remote, ip);
      if devices[0].ipAddress != ip && exists i :: 0 <= i < |devices| && devices[i].ipAddress == ip {
        var i :| 0 <= i < |devices| && devices[i].ipAddress == ip;
        assert devices[1..][i - 1] == devices[i];
      }
      if exists i :: 0 <= i < |devices[1..]| && devices[1..][i].ipAddress == ip {
        var i :| 0 <= i < |devices[1..]| && devices[1..][i].ipAddress == ip;
        assert devices[i + 1].ipAddress == ip;
      }
    }
  }

  /**
   * As written, an empty endpoint (no address, port 0) is stored and, in
   * client mode, announced, though it is not a usable endpoint.
   */
  lemma EmptyEndpointAdmittedAsWritten(localIPv4: string)
    requires localIPv4 != ""
    ensures AdmitsAsWritten([], localIPv4, DefaultEndpoint) && !IsValid(DefaultEndpoint)
    ensures !Admits([], localIPv4, DefaultEndpoint)
  {
  }

  class DiscoveryService {
    var localIPv4: string
    var tcpPort: int
    var playerName: string
    var initialized: bool
    var discoveryMode: DiscoveryMode
    /** Whether the discovery thread has been started. */
    var running: bool
    var remoteDevices: seq<Endpoint>
    /** The endpoints announced to the observers through `remoteFound`, in order. */
    var found: seq<Endpoint>

    /** The list holds no duplicates. */
    predicate Valid()
      reads this
    {
      Distinct(remoteDevices)
    }

    constructor()
      ensures Valid() && remoteDevices == [] && found == []
      ensures !initialized && !running && discoveryMode == None
      ensures localIPv4 == "" && playerName == "" && tcpPort == 0
    {
      localIPv4 := "";
      tcpPort := 0;
      playerName := "";
      initialized := false;
      discoveryMode := None;
      running := false;
      remoteDevices := [];
      found := [];
    }

    /**
     * `init`: an empty name or address is refused with nothing changed;
     * otherwise the settings are taken and the service is initialised when
     * its socket binds.
     */
    method Init(name: string, ip: string, port: int, bindSucceeds: bool) returns (ok: bool)
      modifies this`localIPv4, this`tcpPort, this`playerName, this`initialized
      ensures ok <==> ip != "" && name != "" && bindSucceeds
      ensures ip == "" || name == "" ==>
                localIPv4 == old(localIPv4) && tcpPort == old(tcpPort) && playerName == old(playerName) && initialized == old(initialized)
      ensures ip != "" && name != "" ==>
                localIPv4 == ip && tcpPort == port && playerName == name && initialized == (old(initialized) || bindSucceeds)
    {
      if ip == "" || name == "" {
        return false;
      }
      tcpPort := port;
      localIPv4 := ip;
      playerName := name;
      if !bindSucceeds {
        return false;
      }
      initialized := true;
      return true;
    }

    /**
     * `startDiscovery`: an uninitialised service throws; otherwise the mode is
     * taken, and the thread starts unless the mode is None.
     */
    method StartDiscovery(mode: DiscoveryMode) returns (thrown: bool)
      modifies this`discoveryMode, this`running
      ensures thrown <==> !initialized
      ensures thrown ==> discoveryMode == old(discoveryMode) && running == old(running)
      ensures !thrown ==> discoveryMode == mode && running == (old(running) || mode != None)
    {
      if !initialized {
        return true;
      }
      discoveryMode := mode;
      if mode != None {
        running := true;
      }
      return false;
    }

    /** `getEndpointFromIP`: the first stored endpoint with the address, else the default endpoint. */
    method GetEndpointFromIP(ip: string) returns (e: Endpoint)
      ensures e == FirstWithIP(remoteDevices, ip)
    {
      var i := 0;
      while i < |remoteDevices|
        invariant 0 <= i <= |remoteDevices|
        invariant FirstWithIP(remoteDevices, ip) == FirstWithIP(remoteDevices[i..], ip)
      {
        assert remoteDevices[i..][1..] == remoteDevices[i + 1..];
        if remoteDevices[i].ipAddress == ip {
          return remoteDevices[i];
        }
        i := i + 1;
      }
      return DefaultEndpoint;
    }

    /** The duplicate scan of `addRemoteToList`. */
    method IsKnown(remote: Endpoint) returns (known: bool)
      ensures known <==> remote in remoteDevices
    {
      var i := 0;
      while i < |remoteDevices|
        invariant 0 <= i <= |remoteDevices|
        invariant remote !in remoteDevices[..i]
      {
        if remoteDevices[i] == remote {
          return true;
        }
        assert remoteDevices[..i + 1] == remoteDevices[..i] + [remoteDevices[i]];
        i := i + 1;
      }
      assert remoteDevices[..i] == remoteDevices;
      return false;
    }

    /**
     * `addRemoteToList` as written: a new endpoint that is not the local
     * address is appended, and announced in client mode.
     */
    method AddRemoteToListAsWritten(remote: Endpoint)
      requires Valid()
      modifies this`remoteDevices, this`found
      ensures Valid()
      ensures var admitted := AdmitsAsWritten(old(remoteDevices), localIPv4, remote);
              remoteDevices == (if admitted then old(remoteDevices) + [remote] else old(remoteDevices))
              && found == (if admitted && discoveryMode == Client then old(found) + [remote] else old(found))
    {
      var known := IsKnown(remote);
      if known {
        return;
      }
      if localIPv4 == remote.ipAddress {
        return;
      }
      AppendKeepsDistinct(remoteDevices, remote);
      remoteDevices := remoteDevices + [remote];
      if discoveryMode == Client {
        found := found + [remote];
      }
    }

    /** `addRemoteToList`, keeping invalid endpoints out as well. */
    method AddRemoteToList(remote: Endpoint)
      requires Valid()
      modifies this`remoteDevices, this`found
      ensures Valid()
      ensures var admitted := Admits(old(remoteDevices), localIPv4, remote);
              remoteDevices == (if admitted then old(remoteDevices) + [remote] else old(remoteDevices))
              && found == (if admitted && discoveryMode == Client then old(found) + [remote] else old(found))
    {
      if !IsValid(remote) {
        return;
      }
      var known := IsKnown(remote);
      if known {
        return;
      }
      if localIPv4 == remote.ipAddress {
        return;
      }
      AppendKeepsDistinct(remoteDevices, remote);
      remoteDevices := remoteDevices + [remote];
      if discoveryMode == Client {
        found := found + [remote];
      }
    }
  }

  lemma AppendKeepsDistinct(devices: seq<Endpoint>, remote: Endpoint)
    requires Distinct(devices) && remote !in devices
    ensures Distinct(devices + [remote])
  {
    var s := devices + [remote];
    forall i, j | 0 <= i < j < |s|
      ensures s[i] != s[j]
    {
      if j == |devices| {
        assert s[i] == devices[i];
      } else {
        assert s[i] == devices[i] && s[j] == devices[j];
      }
    }
  }

  /** The list reached by admitting endpoints one at a time. */
  function AddAll(devices: seq<Endpoint>, localIPv4: string, remotes: seq<Endpoint>): seq<Endpoint>
    decreases |remotes|
  {
    if remotes == [] then devices
    else
      var last := remotes[|remotes| - 1];
      var before := AddAll(devices, localIPv4, remotes[..|remotes| - 1]);
      if Admits(before, localIPv4, last) then before + [last] else before
  }

  /**
   * Admitting any run of endpoints into a list without duplicates or the
   * local address keeps both properties, stores only valid endpoints and
   * keeps what was there as a prefix.
   */
  lemma {:induction false} AddAllInvariant(devices: seq<Endpoint>, localIPv4: string, remotes: seq<Endpoint>)
    requires Distinct(devices) && NoneLocal(devices, localIPv4)
    ensures var r := AddAll(devices, localIPv4, remotes);
            Distinct(r) && NoneLocal(r, localIPv4) && devices <= r && |r| <= |devices| + |remotes|
            && forall i :: |devices| <= i < |r| ==> IsValid(r[i]) && r[i] in remotes
    decreases |remotes|
  {
    if remotes != [] {
      var last := remotes[|remotes| - 1];
      var init := remotes[..|remotes| - 1];
      AddAllInvariant(devices, localIPv4, init);
      var before := AddAll(devices, localIPv4, init);
      if Admits(before, localIPv4, last) {
        AppendKeepsDistinct(before, last);
        var r := before + [last];
        forall i | |devices| <= i < |r|
          ensures IsValid(r[i]) && r[i] in remotes
        {
          if i < |before| {
            assert r[i] == before[i] && before[i] in init;
          }
        }
      } else {
        forall i | |devices| <= i < |before|
          ensures before[i] in remotes
        {
          assert before[i] in init;
        }
      }
    }
  }

  /** Discovering an endpoint a second time leaves the list alone. */
  lemma AddTwice(devices: seq<Endpoint>, localIPv4: string, remote: Endpoint)
    ensures var once := if Admits(devices, localIPv4, remote) then devices + [remote] else devices;
            !Admits(once, localIPv4, remote)
  {
  }

  /**
   * After an admitted endpoint is stored, looking up its address gives it
   * unless an endpoint stored earlier already has that address; the local
   * address is never found.
   */
  lemma LookupAfterAdd(devices: seq<Endpoint>, localIPv4: string, remote: Endpoint)
    requires NoneLocal(devices, localIPv4)
    requires Admits(devices, localIPv4, remote)
    ensures (forall i :: 0 <= i < |devices| ==> devices[i].ipAddress != remote.ipAddress) ==>
              FirstWithIP(devices + [remote], remote.ipAddress) == remote
    ensures FirstWithIP(devices + [remote], localIPv4) == DefaultEndpoint
  {
    FirstWithIPAppend(devices, remote, remote.ipAddress);
    FirstWithIPAppend(devices, remote, localIPv4);
  }
}
