/**
  The transaction action kinds reported by the package engine's transaction
  callback, and the fixed table that names each of them (dnfjson.py:7-23).
  The engine's numeric constants are not modelled: each kind is its own
  constructor, so two kinds never share a table entry.
 */
module Actions {
  import opened Wrappers

  datatype Action =
    | PkgDowngrade
    | PkgDowngraded
    | PkgInstall
    | PkgObsolete
    | PkgObsoleted
    | PkgReinstall
    | PkgReinstalled
    | PkgRemove
    | PkgUpgrade
    | PkgUpgraded
    | PkgCleanup
    | PkgVerify
    | PkgScriptlet
    | TransPreparation
    | TransPost

  /**
    The `status_strings` table: the display label of an action kind. Every
    kind has an entry, and reading its label back gives the kind.
   */
  function StatusString(a: Action): (r: string)
    ensures ActionNamed(r) == Some(a)
  {
    match a
    case PkgDowngrade => "PKG_DOWNGRADE"
    case PkgDowngraded => "PKG_DOWNGRADED"
    case PkgInstall => "PKG_INSTALL"
    case PkgObsolete => "PKG_OBSOLETE"
    case PkgObsoleted => "PKG_OBSOLETED"
    case PkgReinstall => "PKG_REINSTALL"
    case PkgReinstalled => "PKG_REINSTALLED"
    case PkgRemove => "PKG_REMOVE"
    case PkgUpgrade => "PKG_UPGRADE"
    case PkgUpgraded => "PKG_UPGRADED"
    case PkgCleanup => "PKG_CLEANUP"
    case PkgVerify => "PKG_VERIFY"
    case PkgScriptlet => "PKG_SCRIPTLET"
    case TransPreparation => "TRANS_PREPARATION"
    case TransPost => "TRANS_POST"
  }

  /** Reads the table backwards: the action kind a label names, if any. */
  function ActionNamed(text: string): Option<Action>
  {
    if text == "PKG_DOWNGRADE" then Some(PkgDowngrade)
    else if text == "PKG_DOWNGRADED" then Some(PkgDowngraded)
    else if text == "PKG_INSTALL" then Some(PkgInstall)
    else if text == "PKG_OBSOLETE" then Some(PkgObsolete)
    else if text == "PKG_OBSOLETED" then Some(PkgObsoleted)
    else if text == "PKG_REINSTALL" then Some(PkgReinstall)
    else if text == "PKG_REINSTALLED" then Some(PkgReinstalled)
    else if text == "PKG_REMOVE" then Some(PkgRemove)
    else if text == "PKG_UPGRADE" then Some(PkgUpgrade)
    else if text == "PKG_UPGRADED" then Some(PkgUpgraded)
    else if text == "PKG_CLEANUP" then Some(PkgCleanup)
    else if text == "PKG_VERIFY" then Some(PkgVerify)
    else if text == "PKG_SCRIPTLET" then Some(PkgScriptlet)
    else if text == "TRANS_PREPARATION" then Some(TransPreparation)
    else if text == "TRANS_POST" then Some(TransPost)
    else None
  }

  /** A label names a kind exactly when it is that kind's entry; a label naming nothing is no kind's entry. */
  lemma ActionNamedExact(text: string)
    ensures ActionNamed(text).Some? ==> StatusString(ActionNamed(text).value) == text
    ensures ActionNamed(text).None? ==> forall a :: StatusString(a) != text
  {
  }

  /** No two action kinds share a label. */
  lemma StatusStringInjective(a: Action, b: Action)
    ensures StatusString(a) == StatusString(b) <==> a == b
  {
  }

  /**
    The two kinds the transaction translator reports (dnfjson.py:56); every
    other kind is observed and dropped.
   */
  predicate Reported(a: Action)
  {
    a == PkgInstall || a == PkgUpgraded
  }

  /** An action is reported exactly when its label is one of the two reported labels. */
  lemma ReportedByLabel(a: Action)
    ensures Reported(a) <==> StatusString(a) == "PKG_INSTALL" || StatusString(a) == "PKG_UPGRADED"
  {
  }
}
