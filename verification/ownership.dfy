/** The Ownership object: latches that only close, and the lease's deadline. */
module Ownerships {
  import opened Ids
  import S = Consumer

  class Ownership {
    /** Which Assign it was made for: the n-th of a grant. */
    ghost const origin: (GrantId, nat)
    var active: bool
    var revoked: bool
    var expired: bool
    var unloaded: bool      // the Loader's counterpart latch
    var loaded: bool        // the Unloader's counterpart latch
    var load: bool          // closed by its holder: the Loader's
    var unload: bool        // and the Unloader's
    var requestRevoke: bool
    var expiration: Time

    /** The driver's side of it. */
    function View(): S.Own
      reads this
    {
      S.Own(active, revoked, expired, unloaded, loaded, expiration)
    }

    /** Its holder's side: `load`, `unload` and the request to be revoked. */
    function Signals(): (bool, bool, bool)
      reads this
    {
      (load, unload, requestRevoke)
    }

    /** `now` is the clock reading that decides whether the lease has passed. */
    constructor (state: GrantState, deadline: Time, now: Time, ghost origin: (GrantId, nat))
      ensures View() == S.Own(state.Active?, state.Revoked? || state.RevokedUnloaded?, now > deadline,
                              false, false, deadline)
      ensures Signals() == (false, false, false)
      ensures this.origin == origin
    {
      this.origin := origin;
      active, revoked, expired := false, false, false;
      unloaded, loaded := false, false;
      load, unload, requestRevoke := false, false, false;
      expiration := deadline;
      new;
      match state {
        case Active => active := true;
        case Revoked => revoked := true;
        case RevokedUnloaded => revoked := true;
        case _ =>
      }
      if now > deadline { expired := true; }
    }

    method SetExpiration(deadline: Time)
      modifies this
      ensures View() == old(View()).(deadline := deadline) && Signals() == old(Signals())
    {
      expiration := deadline;
    }

    method Activate()
      modifies this
      ensures View() == old(View()).(active := true) && Signals() == old(Signals())
    {
      active := true;
    }

    method Revoke()
      modifies this
      ensures View() == old(View()).(revoked := true) && Signals() == old(Signals())
    {
      revoked := true;
    }

    method Expire()
      modifies this
      ensures View() == old(View()).(expired := true) && Signals() == old(Signals())
    {
      expired := true;
    }

    method CounterpartLoaded()
      modifies this
      ensures View() == old(View()).(loaded := true) && Signals() == old(Signals())
    {
      loaded := true;
    }

    method CounterpartUnloaded()
      modifies this
      ensures View() == old(View()).(unloaded := true) && Signals() == old(Signals())
    {
      unloaded := true;
    }

    method RequestRevoke()
      modifies this
      ensures View() == old(View()) && Signals() == (old(load), old(unload), true)
    {
      requestRevoke := true;
    }

    /** The holder has loaded; and later, has finished unloading. */
    method Load()
      modifies this
      ensures View() == old(View()) && Signals() == (true, old(unload), old(requestRevoke))
    {
      load := true;
    }

    method Unload()
      modifies this
      ensures View() == old(View()) && Signals() == (old(load), true, old(requestRevoke))
    {
      unload := true;
    }
  }
}
