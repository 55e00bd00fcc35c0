/** The session UI state of the client (`authSlice`): three modal flags,
    the auth loading flag, the caller's own profile and the profile roster. */
module AuthSlice {

  /** A profile as the server returns it; `userProfile` is the owning account. */
  datatype Profile = Profile(id: int, nickName: string, userProfile: int, createdOn: string, img: string)

  /** The empty sentinel the own profile and the roster start with. */
  const EmptyProfile := Profile(0, "", 0, "", "")

  /** A snapshot of the whole slice. */
  datatype AuthState = AuthState(
    openSignIn: bool,
    openSignUp: bool,
    openProfile: bool,
    isLoadingAuth: bool,
    myprofile: Profile,
    profiles: seq<Profile>)

  /** The snapshot after `editNickname`: only the own profile's nickname
      changes. */
  function WithNickname(s: AuthState, nickName: string): (r: AuthState)
    ensures r.myprofile.nickName == nickName
    ensures r.myprofile.id == s.myprofile.id && r.myprofile.userProfile == s.myprofile.userProfile
    ensures r.myprofile.createdOn == s.myprofile.createdOn && r.myprofile.img == s.myprofile.img
    ensures r.profiles == s.profiles && r.isLoadingAuth == s.isLoadingAuth
    ensures r.openSignIn == s.openSignIn && r.openSignUp == s.openSignUp && r.openProfile == s.openProfile
  {
    s.(myprofile := s.myprofile.(nickName := nickName))
  }

  /** The slice as the store holds it; every reducer assigns a field in place. */
  class AuthStore {
    var openSignIn: bool
    var openSignUp: bool
    var openProfile: bool
    var isLoadingAuth: bool
    var myprofile: Profile
    var profiles: seq<Profile>

    function Value(): AuthState
      reads this
    {
      AuthState(openSignIn, openSignUp, openProfile, isLoadingAuth, myprofile, profiles)
    }

    /** The initial state: the sign-in modal is open, nothing else is, no
        request is outstanding, and the profiles are the empty sentinel. */
    constructor ()
      ensures openSignIn && !openSignUp && !openProfile && !isLoadingAuth
      ensures myprofile == EmptyProfile && profiles == [EmptyProfile]
    {
      openSignIn := true;
      openSignUp := false;
      openProfile := false;
      isLoadingAuth := false;
      myprofile := EmptyProfile;
      profiles := [EmptyProfile];
    }

    method FetchCredStart()
      modifies this
      ensures Value() == old(Value()).(isLoadingAuth := true)
      ensures old(isLoadingAuth) ==> Value() == old(Value())
    {
      isLoadingAuth := true;
    }

    method FetchCredEnd()
      modifies this
      ensures Value() == old(Value()).(isLoadingAuth := false)
      ensures !old(isLoadingAuth) ==> Value() == old(Value())
    {
      isLoadingAuth := false;
    }

    method SetOpenSignIn()
      modifies this
      ensures Value() == old(Value()).(openSignIn := true)
      ensures old(openSignIn) ==> Value() == old(Value())
    {
      openSignIn := true;
    }

    method ResetOpenSignIn()
      modifies this
      ensures Value() == old(Value()).(openSignIn := false)
      ensures !old(openSignIn) ==> Value() == old(Value())
    {
      openSignIn := false;
    }

    method SetOpenSignUp()
      modifies this
      ensures Value() == old(Value()).(openSignUp := true)
      ensures old(openSignUp) ==> Value() == old(Value())
    {
      openSignUp := true;
    }

    method ResetOpenSignUp()
      modifies this
      ensures Value() == old(Value()).(openSignUp := false)
      ensures !old(openSignUp) ==> Value() == old(Value())
    {
      openSignUp := false;
    }

    method SetOpenProfile()
      modifies this
      ensures Value() == old(Value()).(openProfile := true)
      ensures old(openProfile) ==> Value() == old(Value())
    {
      openProfile := true;
    }

    method ResetOpenProfile()
      modifies this
      ensures Value() == old(Value()).(openProfile := false)
      ensures !old(openProfile) ==> Value() == old(Value())
    {
      openProfile := false;
    }

    /** Overwrites the nickname of the own profile; its other fields, the
        flags and the roster stay as they were (see `WithNickname`). */
    method EditNickname(nickName: string)
      modifies this
      ensures Value() == WithNickname(old(Value()), nickName)
    {
      myprofile := myprofile.(nickName := nickName);
    }
  }

  /** The modal flags are independent: from the initial state, opening the
      sign-up modal leaves the sign-in modal open, so both are open at once. */
  method BothModalsOpen() returns (st: AuthStore)
    ensures st.openSignIn && st.openSignUp && !st.openProfile
  {
    st := new AuthStore();
    st.SetOpenSignUp();
  }

  /** Editing the nickname is last-writer-wins: `a` then `b` ends where
      `b` alone ends. */
  lemma NicknameLastWriterWins(s: AuthState, a: string, b: string)
    ensures WithNickname(WithNickname(s, a), b) == WithNickname(s, b)
  {
  }
}
