/** SNConnectorConfiguration: the connector's three settings (the base address of the
    ServiceNow instance, the user name and the password) and their validation. The password is
    held as the clear text its GuardedString carries, or None for a null GuardedString. */
module ConnectorConfiguration {
  import opened Wrappers
  import opened JavaText

  const BaseAddressMissing: string := "Base URL cannot be null or empty."
  const UsernameMissing: string := "Username cannot be null or empty."
  const PasswordMissing: string := "Password Id cannot be null or empty."

  /** SecurityUtil.decrypt(password): the clear text; a null GuardedString throws, since decrypt
      calls access on it. */
  function Decrypt(password: Option<string>): (r: Result<string>)
    ensures r.Success? <==> password.Some?
    ensures r.Success? ==> r.value == password.value
    ensures r.Failure? ==> r.error == NullPointer
  {
    if password.Some? then Success(password.value) else Failure(NullPointer)
  }

  class SNConnectorConfiguration {
    var username: Option<string>
    var password: Option<string>
    var baseAddress: Option<string>

    /** A new configuration: every setting null. */
    constructor ()
      ensures username == None && password == None && baseAddress == None
    {
      username, password, baseAddress := None, None, None;
    }

    function GetBaseAddress(): (r: Option<string>)
      reads this
      ensures r == baseAddress
    {
      baseAddress
    }

    method SetBaseAddress(baseAddress: Option<string>)
      modifies this
      ensures GetBaseAddress() == baseAddress
      ensures username == old(username) && password == old(password)
    {
      this.baseAddress := baseAddress;
    }

    function GetUsername(): (r: Option<string>)
      reads this
      ensures r == username
    {
      username
    }

    method SetUsername(username: Option<string>)
      modifies this
      ensures GetUsername() == username
      ensures baseAddress == old(baseAddress) && password == old(password)
    {
      this.username := username;
    }

    function GetPassword(): (r: Option<string>)
      reads this
      ensures r == password
    {
      password
    }

    method SetPassword(password: Option<string>)
      modifies this
      ensures GetPassword() == password
      ensures baseAddress == old(baseAddress) && username == old(username)
    {
      this.password := password;
    }

    /** validate(): the base address, then the user name, then the decrypted password must be
        non-blank; the first one that is blank is reported by its message key, and a null
        password makes decrypt throw. All three present and non-blank: validate returns. */
    method Validate() returns (o: Outcome)
      ensures IsBlank(baseAddress) ==> o == Fail(ConfigurationError(BaseAddressMissing))
      ensures !IsBlank(baseAddress) && IsBlank(username) ==> o == Fail(ConfigurationError(UsernameMissing))
      ensures !IsBlank(baseAddress) && !IsBlank(username) && password.None? ==> o == Fail(NullPointer)
      ensures !IsBlank(baseAddress) && !IsBlank(username) && password.Some? && IsBlank(password)
        ==> o == Fail(ConfigurationError(PasswordMissing))
      ensures o.Pass? <==> !IsBlank(baseAddress) && !IsBlank(username) && password.Some? && !IsBlank(password)
    {
      if IsBlank(baseAddress) {
        return Fail(ConfigurationError(BaseAddressMissing));
      }
      if IsBlank(username) {
        return Fail(ConfigurationError(UsernameMissing));
      }
      var clear := Decrypt(password);
      if clear.Failure? {
        return Fail(clear.error);
      }
      if IsBlank(Some(clear.value)) {
        return Fail(ConfigurationError(PasswordMissing));
      }
      return Pass;
    }

    /** release(): nothing to release. */
    method Release()
    {
    }
  }

  /** The three setters, named for the order in which a caller invokes them. */
  datatype Setting = BaseAddressSetting | UsernameSetting | PasswordSetting

  /** Setting the three values and validating: a configuration whose three settings are
      non-blank passes, whichever order the setters run in and however often each runs. */
  method ConfiguredPasses(baseAddress: string, username: string, password: string, order: seq<Setting>)
    returns (o: Outcome)
    requires !IsBlank(Some(baseAddress)) && !IsBlank(Some(username)) && !IsBlank(Some(password))
    requires BaseAddressSetting in order && UsernameSetting in order && PasswordSetting in order
    ensures o == Pass
  {
    var c := new SNConnectorConfiguration();
    for i := 0 to |order|
      invariant BaseAddressSetting in order[..i] ==> c.baseAddress == Some(baseAddress)
      invariant BaseAddressSetting !in order[..i] ==> c.baseAddress == None
      invariant UsernameSetting in order[..i] ==> c.username == Some(username)
      invariant UsernameSetting !in order[..i] ==> c.username == None
      invariant PasswordSetting in order[..i] ==> c.password == Some(password)
      invariant PasswordSetting !in order[..i] ==> c.password == None
    {
      assert order[..i + 1] == order[..i] + [order[i]];
      match order[i]
      case BaseAddressSetting => c.SetBaseAddress(Some(baseAddress));
      case UsernameSetting => c.SetUsername(Some(username));
      case PasswordSetting => c.SetPassword(Some(password));
    }
    assert order[..|order|] == order;
    o := c.Validate();
  }
}
