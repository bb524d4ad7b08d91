/**
 * The in-memory key directory: a map from mail address to PEM public key.
 * Stop sets the map to nil; Go reads a nil map as empty, so the model keeps
 * an empty map plus a flag.
 */
module BackendDummy {
  import opened Keys

  class DummyBackend {
    var data: map<string, string>
    /** The map has been set to nil by Stop. */
    var stopped: bool
    const parse: KeyParser

    ghost predicate Valid()
      reads this
    {
      stopped ==> data == map[]
    }

    /** NewDummyBackend */
    constructor (parse: KeyParser)
      ensures Valid() && data == map[] && !stopped && this.parse == parse
    {
      data := map[];
      stopped := false;
      this.parse := parse;
    }

    /** The key stored for mail, parsed; None when mail is unknown or its PEM does not parse. */
    function GetPublicKey(mail: string): (key: Option<PublicKey>)
      reads this
      ensures mail !in data ==> key == None
      ensures key.Some? ==> mail in data && parse(data[mail]) == key
    {
      if mail in data then parse(data[mail]) else None
    }

    /**
     * One token per stored mail, carrying its stored key and Admin == false,
     * in whatever order the map is walked; none once Stop has dropped the map.
     */
    method GetAll() returns (tokens: seq<APIToken>, err: Option<BackendError>)
      requires Valid()
      ensures err == None
      ensures stopped ==> tokens == []
      ensures |tokens| == |data|
      ensures forall i | 0 <= i < |tokens| ::
                tokens[i].mail in data && tokens[i].publicKey == data[tokens[i].mail] && !tokens[i].admin
      ensures forall mail | mail in data :: exists i :: 0 <= i < |tokens| && tokens[i].mail == mail
      ensures forall i, j | 0 <= i < j < |tokens| :: tokens[i].mail != tokens[j].mail
    {
      tokens := [];
      var rest := data.Keys;
      while rest != {}
        invariant rest <= data.Keys
        invariant |tokens| + |rest| == |data|
        invariant forall i | 0 <= i < |tokens| ::
                    tokens[i].mail in data && tokens[i].mail !in rest
                    && tokens[i].publicKey == data[tokens[i].mail] && !tokens[i].admin
        invariant forall mail | mail in data && mail !in rest :: exists i :: 0 <= i < |tokens| && tokens[i].mail == mail
        invariant forall i, j | 0 <= i < j < |tokens| :: tokens[i].mail != tokens[j].mail
        decreases rest
      {
        var mail :| mail in rest;
        ghost var before := tokens;
        tokens := tokens + [APIToken(mail, data[mail], false)];
        assert tokens[|before|].mail == mail;
        assert forall i | 0 <= i < |before| :: tokens[i] == before[i];
        rest := rest - {mail};
      }
      err := None;
    }

    /**
     * Stores the token's key under its mail, replacing any earlier key; the
     * Admin flag is not kept. Writing to the nil map left by Stop panics in
     * Go, so Add is not available after Stop.
     */
    method Add(t: APIToken) returns (err: Option<BackendError>)
      requires Valid() && !stopped
      modifies this
      ensures Valid() && !stopped
      ensures err == None
      ensures data == old(data)[t.mail := t.publicKey]
      ensures GetPublicKey(t.mail) == parse(t.publicKey)
    {
      data := data[t.mail := t.publicKey];
      err := None;
    }

    /** Deletes mail's entry (a no-op when absent, also after Stop). */
    method Remove(mail: string) returns (err: Option<BackendError>)
      requires Valid()
      modifies this
      ensures Valid() && stopped == old(stopped)
      ensures err == None
      ensures data == old(data) - {mail}
      ensures GetPublicKey(mail) == None
      ensures forall other | other != mail :: GetPublicKey(other) == old(GetPublicKey(other))
    {
      data := data - {mail};
      err := None;
    }

    /** Drops the map: nothing remains to look up or list. */
    method Stop()
      modifies this
      ensures Valid() && stopped
      ensures data == map[]
      ensures forall mail :: GetPublicKey(mail) == None
    {
      data := map[];
      stopped := true;
    }
  }
}
