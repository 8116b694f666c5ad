/** The text and icon choices of the authentication screen. Each is a pure
    function of the two state flags `hasBiometrics` and `isAuthenticating`. */
module AuthView {

  const BiometricPrompt := "Use Face ID/Touch ID"
  const PinText := "Enter your PIN to access your medications"
  const BiometricInstruction := "Use face ID/TouchID or PIN to access your medications"
  const FingerprintIcon := "finger-print-outline"
  const KeypadIcon := "keypad-outline"
  const VerifyingLabel := "Verifying..."
  const AuthenticateLabel := "Authenticate"
  const PinLabel := "Enter PIN"

  /** How the user is asked to prove who they are. */
  datatype Method = Biometric | Pin

  function MethodOf(hasBiometrics: bool): (m: Method)
    ensures m.Biometric? <==> hasBiometrics
  {
    if hasBiometrics then Biometric else Pin
  }

  /** The message shown by the operating system's challenge. */
  function PromptMessage(hasBiometrics: bool): (r: string)
    ensures MethodOf(hasBiometrics).Biometric? ==> r == BiometricPrompt
    ensures MethodOf(hasBiometrics).Pin? ==> r == PinText
  {
    if hasBiometrics then BiometricPrompt else PinText
  }

  /** The instruction line on the card. */
  function InstructionText(hasBiometrics: bool): (r: string)
    ensures MethodOf(hasBiometrics).Biometric? ==> r == BiometricInstruction
    ensures MethodOf(hasBiometrics).Pin? ==> r == PinText
  {
    if hasBiometrics then BiometricInstruction else PinText
  }

  /** The icon drawn on the button. */
  function ButtonIcon(hasBiometrics: bool): (r: string)
    ensures MethodOf(hasBiometrics).Biometric? ==> r == FingerprintIcon
    ensures MethodOf(hasBiometrics).Pin? ==> r == KeypadIcon
  {
    if hasBiometrics then FingerprintIcon else KeypadIcon
  }

  /** The two gradient colours of the button. */
  function ButtonColors(hasBiometrics: bool): (r: seq<string>)
    ensures |r| == 2
    ensures MethodOf(hasBiometrics).Biometric? ==> r == ["#4CAF50", "#2E7D32"]
    ensures MethodOf(hasBiometrics).Pin? ==> r == ["#2196F3", "#1976D2"]
  {
    if hasBiometrics then ["#4CAF50", "#2E7D32"] else ["#2196F3", "#1976D2"]
  }

  /** The button is disabled while an attempt is in flight. */
  function ButtonEnabled(isAuthenticating: bool): (r: bool)
    ensures r <==> !isAuthenticating
  {
    !isAuthenticating
  }

  /** The button's label: the in-flight label wins over the method's label. */
  function ButtonLabel(isAuthenticating: bool, hasBiometrics: bool): (r: string)
    ensures r == VerifyingLabel <==> isAuthenticating
    ensures !isAuthenticating && MethodOf(hasBiometrics).Biometric? ==> r == AuthenticateLabel
    ensures !isAuthenticating && MethodOf(hasBiometrics).Pin? ==> r == PinLabel
  {
    if isAuthenticating then VerifyingLabel
    else if hasBiometrics then AuthenticateLabel
    else PinLabel
  }

  /** Every biometric-driven choice tells the two methods apart, so the prompt,
      the instruction, the icon, the colours and the idle label always agree on
      which method is offered. */
  lemma ChoicesAgree(a: bool, b: bool)
    ensures PromptMessage(a) == PromptMessage(b) <==> a == b
    ensures InstructionText(a) == InstructionText(b) <==> a == b
    ensures ButtonIcon(a) == ButtonIcon(b) <==> a == b
    ensures ButtonColors(a) == ButtonColors(b) <==> a == b
    ensures ButtonLabel(false, a) == ButtonLabel(false, b) <==> a == b
  {
  }
}
