/**
 * The status taxonomy of Bix: a closed set of outcomes, each with a numeric
 * status code and a user-facing message.
 *
 * Numbering scheme: the hundreds digit is the group (0 safe termination,
 * 1 file/resource error, 2 setup error, 3 authentication failure, 4 idle
 * session timeout), the tens digit is the subgroup within the group, and the
 * unknown error of a group ends in 00.
 */
module Enums {

  datatype Option<+T> = None | Some(value: T)

  /** The enum constants, in declaration order. */
  datatype StatusCode =
    | SafeTermination
    | UnknownResourceError
    | ConfigFileNotFound
    | VaultFileNotFound
    | ConsoleNotFound
    | ErrorAccessingConfigFile
    | ErrorAccessingVaultFile
    | UnknownSetupError
    | MasterPasswordSetupFailed
    | UnknownAuthenticationError
    | AuthenticationFailed
    | IdleSessionTimeout

  /** The groups named by the section comments of the enum. */
  datatype Group = Termination | Resource | Setup | Authentication | IdleTimeout

  /** The number each section comment gives its group. */
  function GroupNumber(g: Group): (n: nat)
    ensures n < 5
  {
    match g
    case Termination => 0
    case Resource => 1
    case Setup => 2
    case Authentication => 3
    case IdleTimeout => 4
  }

  /** The section of the enum a constant is declared under. */
  function GroupOf(s: StatusCode): (g: Group)
    ensures g == Termination <==> s == SafeTermination
    ensures g == IdleTimeout <==> s == IdleSessionTimeout
    ensures IsNotFound(s) || IsAccessError(s) ==> g == Resource
    ensures IsUnknown(s) ==> g != Termination && g != IdleTimeout
  {
    match s
    case SafeTermination => Termination
    case UnknownResourceError | ConfigFileNotFound | VaultFileNotFound | ConsoleNotFound
      | ErrorAccessingConfigFile | ErrorAccessingVaultFile => Resource
    case UnknownSetupError | MasterPasswordSetupFailed => Setup
    case UnknownAuthenticationError | AuthenticationFailed => Authentication
    case IdleSessionTimeout => IdleTimeout
  }

  /** The constants under the "Resource Not Found" sub-heading. */
  predicate IsNotFound(s: StatusCode)
  {
    s.ConfigFileNotFound? || s.VaultFileNotFound? || s.ConsoleNotFound?
  }

  /** The constants under the "Resource Access Error" sub-heading. */
  predicate IsAccessError(s: StatusCode)
  {
    s.ErrorAccessingConfigFile? || s.ErrorAccessingVaultFile?
  }

  /** The "unknown" error of each group. */
  predicate IsUnknown(s: StatusCode)
  {
    s.UnknownResourceError? || s.UnknownSetupError? || s.UnknownAuthenticationError?
  }

  /** getStatusCode: the code each constant is constructed with. */
  function Code(s: StatusCode): (c: int)
    ensures c == 0 <==> s == SafeTermination
    ensures s != SafeTermination ==> 100 <= c <= 499
  {
    match s
    case SafeTermination => 0
    case UnknownResourceError => 100
    case ConfigFileNotFound => 110
    case VaultFileNotFound => 111
    case ConsoleNotFound => 112
    case ErrorAccessingConfigFile => 120
    case ErrorAccessingVaultFile => 121
    case UnknownSetupError => 200
    case MasterPasswordSetupFailed => 210
    case UnknownAuthenticationError => 300
    case AuthenticationFailed => 310
    case IdleSessionTimeout => 400
  }

  /** getMessage: the message each constant is constructed with. */
  function Message(s: StatusCode): (m: string)
    ensures |m| > 0 && m[|m| - 1] == '.'
  {
    match s
    case SafeTermination => "Safe Termination."
    case UnknownResourceError => "An unknown file/resource error has occurred."
    case ConfigFileNotFound => "The config.properties file could not be found."
    case VaultFileNotFound => "The vault.db file could not be found."
    case ConsoleNotFound => "Unable to find a system console associated with the current JVM."
    case ErrorAccessingConfigFile => "An error occurred while accessing the config.properties file."
    case ErrorAccessingVaultFile => "An error occurred while accessing the vault.db file."
    case UnknownSetupError => "Bix setup process failed for an unknown reason."
    case MasterPasswordSetupFailed => "Master Password setup failed."
    case UnknownAuthenticationError => "An unknown error occurred during User Authentication."
    case AuthenticationFailed => "User Authentication Failed."
    case IdleSessionTimeout => "Bix session terminated due to inactivity."
  }

  /** The constant whose message has length n, if any: the twelve messages
      have twelve different lengths. */
  function WithMessageLength(n: nat): (r: Option<StatusCode>)
    ensures r.Some? ==> 17 <= n <= 64
  {
    match n
    case 17 => Some(SafeTermination)
    case 44 => Some(UnknownResourceError)
    case 46 => Some(ConfigFileNotFound)
    case 37 => Some(VaultFileNotFound)
    case 64 => Some(ConsoleNotFound)
    case 61 => Some(ErrorAccessingConfigFile)
    case 52 => Some(ErrorAccessingVaultFile)
    case 47 => Some(UnknownSetupError)
    case 29 => Some(MasterPasswordSetupFailed)
    case 53 => Some(UnknownAuthenticationError)
    case 27 => Some(AuthenticationFailed)
    case 41 => Some(IdleSessionTimeout)
    case _ => None
  }

  /** A message identifies its constant. */
  lemma MessageIdentifies(s: StatusCode)
    ensures WithMessageLength(|Message(s)|) == Some(s)
  {
    if IsNotFound(s) {
      NotFoundMessageIdentifies(s);
    } else if GroupOf(s) == Resource {
      ResourceMessageIdentifies(s);
    } else if GroupOf(s) == Termination || GroupOf(s) == Setup {
      SetupMessageIdentifies(s);
    } else {
      AuthenticationMessageIdentifies(s);
    }
  }

  lemma NotFoundMessageIdentifies(s: StatusCode)
    requires IsNotFound(s)
    ensures WithMessageLength(|Message(s)|) == Some(s)
  {
    match s
    case ConfigFileNotFound =>
    case VaultFileNotFound =>
    case ConsoleNotFound =>
  }

  lemma ResourceMessageIdentifies(s: StatusCode)
    requires GroupOf(s) == Resource && !IsNotFound(s)
    ensures WithMessageLength(|Message(s)|) == Some(s)
  {
    match s
    case UnknownResourceError =>
    case ErrorAccessingConfigFile =>
    case ErrorAccessingVaultFile =>
  }

  lemma SetupMessageIdentifies(s: StatusCode)
    requires GroupOf(s) == Termination || GroupOf(s) == Setup
    ensures WithMessageLength(|Message(s)|) == Some(s)
  {
    match s
    case SafeTermination =>
    case UnknownSetupError =>
    case MasterPasswordSetupFailed =>
  }

  lemma AuthenticationMessageIdentifies(s: StatusCode)
    requires GroupOf(s) == Authentication || GroupOf(s) == IdleTimeout
    ensures WithMessageLength(|Message(s)|) == Some(s)
  {
    match s
    case UnknownAuthenticationError =>
    case AuthenticationFailed =>
    case IdleSessionTimeout =>
  }

  /** No two constants share a message. */
  lemma MessageInjective(a: StatusCode, b: StatusCode)
    requires Message(a) == Message(b)
    ensures a == b
  {
    MessageIdentifies(a);
    MessageIdentifies(b);
  }

  /** ordinal(): the position of a constant in its declaration. */
  function Ordinal(s: StatusCode): (n: nat)
    ensures n < 12
  {
    match s
    case SafeTermination => 0
    case UnknownResourceError => 1
    case ConfigFileNotFound => 2
    case VaultFileNotFound => 3
    case ConsoleNotFound => 4
    case ErrorAccessingConfigFile => 5
    case ErrorAccessingVaultFile => 6
    case UnknownSetupError => 7
    case MasterPasswordSetupFailed => 8
    case UnknownAuthenticationError => 9
    case AuthenticationFailed => 10
    case IdleSessionTimeout => 11
  }

  /** values(): every constant, in declaration order, each at its ordinal. */
  function Values(): (vs: seq<StatusCode>)
    ensures |vs| == 12
    ensures forall s: StatusCode :: vs[Ordinal(s)] == s
  {
    [SafeTermination, UnknownResourceError, ConfigFileNotFound, VaultFileNotFound,
     ConsoleNotFound, ErrorAccessingConfigFile, ErrorAccessingVaultFile, UnknownSetupError,
     MasterPasswordSetupFailed, UnknownAuthenticationError, AuthenticationFailed,
     IdleSessionTimeout]
  }

  /** Codes rise strictly along the declaration order. */
  lemma CodesAscending(i: int, j: int)
    requires 0 <= i < j < |Values()|
    ensures Code(Values()[i]) < Code(Values()[j])
  {
  }

  /** No two constants share a status code. */
  lemma {:induction false} CodeInjective(a: StatusCode, b: StatusCode)
    requires Code(a) == Code(b)
    ensures a == b
  {
    var vs, i, j := Values(), Ordinal(a), Ordinal(b);
    assert vs[i] == a && vs[j] == b;
    if i < j {
      CodesAscending(i, j);
    } else if j < i {
      CodesAscending(j, i);
    }
  }

  /** The first digit of the code is the number of the constant's group. */
  lemma GroupDigit(s: StatusCode)
    ensures Code(s) / 100 == GroupNumber(GroupOf(s))
  {
  }

  /** Within the file/resource group, the second digit is 1 exactly for the
      not-found codes and 2 exactly for the access-error codes. */
  lemma ResourceSubgroupDigit(s: StatusCode)
    requires GroupOf(s) == Resource
    ensures (Code(s) / 10) % 10 == 1 <==> IsNotFound(s)
    ensures (Code(s) / 10) % 10 == 2 <==> IsAccessError(s)
  {
  }

  /** The unknown error of a group ends in 00; apart from those, only the
      sole members of groups 0 and 4 do. */
  lemma UnknownEndsInDoubleZero(s: StatusCode)
    ensures IsUnknown(s) ==> Code(s) % 100 == 0
    ensures Code(s) % 100 == 0 <==> IsUnknown(s) || s == SafeTermination || s == IdleSessionTimeout
  {
    match s
    case UnknownResourceError | UnknownSetupError | UnknownAuthenticationError =>
    case ConfigFileNotFound | VaultFileNotFound | ConsoleNotFound =>
    case ErrorAccessingConfigFile | ErrorAccessingVaultFile =>
    case MasterPasswordSetupFailed | AuthenticationFailed =>
    case SafeTermination | IdleSessionTimeout =>
  }

  /** Every error group has its unknown error, coded group * 100. */
  lemma UnknownPerErrorGroup(g: Group)
    requires g == Resource || g == Setup || g == Authentication
    ensures exists s :: GroupOf(s) == g && IsUnknown(s) && Code(s) == 100 * GroupNumber(g)
  {
    var s := match g
      case Resource => UnknownResourceError
      case Setup => UnknownSetupError
      case _ => UnknownAuthenticationError;
    assert GroupOf(s) == g && IsUnknown(s);
  }

  /** The idle-timeout outcome is alone in group 4. */
  lemma IdleTimeoutGroup(s: StatusCode)
    ensures Code(s) / 100 == 4 <==> s == IdleSessionTimeout
  {
  }
}
