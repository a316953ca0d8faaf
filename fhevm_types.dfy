/** The records the FHEVM client exchanges (cf. ratevault-frontend/fhevm/fhevmTypes.ts). */
module FhevmTypes {

  /** The EIP-712 domain the FHEVM instance puts in a user-decryption request. */
  datatype Eip712Domain = Eip712Domain(chainId: int, name: string, verifyingContract: string, version: string)

  /** The message of a `UserDecryptRequestVerification` typed-data request. */
  datatype DecryptRequest = DecryptRequest(
    publicKey: string,
    contractAddresses: seq<string>,
    startTimestamp: int,
    durationDays: int)

  /** EIP-712 typed structured data: domain, primary type and message. */
  datatype Eip712 = Eip712(domain: Eip712Domain, primaryType: string, message: DecryptRequest)

  const UserDecryptRequestVerification: string := "UserDecryptRequestVerification"

  /** What `createEIP712` returns for a public key, contract list, start time and duration. */
  function UserDecryptTypedData(domain: Eip712Domain, publicKey: string, contractAddresses: seq<string>,
                                startTimestamp: int, durationDays: int): (t: Eip712)
    ensures t.primaryType == UserDecryptRequestVerification && t.domain == domain
    ensures t.message.contractAddresses == contractAddresses && t.message.publicKey == publicKey
    ensures t.message.startTimestamp == startTimestamp && t.message.durationDays == durationDays
  {
    Eip712(domain, UserDecryptRequestVerification,
           DecryptRequest(publicKey, contractAddresses, startTimestamp, durationDays))
  }

  /** An ephemeral key pair from `generateKeypair`. */
  datatype KeyPair = KeyPair(publicKey: string, privateKey: string)

  /** A decryption grant: the fields of `FhevmDecryptionSignature`. */
  datatype Grant = Grant(
    publicKey: string,
    privateKey: string,
    contractAddresses: seq<string>,
    startTimestamp: int,
    durationDays: int,
    signature: string,
    userAddress: string,
    eip712: Eip712)
}
