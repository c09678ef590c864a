/**
 * The DCDN domain certificate driver: Create turns HTTPS on for a domain
 * with a named certificate and stores the domain name as the id, Read
 * refreshes the certificate's name, type and public part from the first
 * certificate the domain reports, Delete turns HTTPS off. There is no
 * Update: every field forces a new resource.
 */
module DcdnDomainCert {
  import opened Wrappers
  import opened Common
  import opened Schema
  import opened DcdnClient

  const SslOn: string := "on"
  const SslOff: string := "off"
  /** ForceSet "1": replace whatever certificate the domain had. */
  const ForceSet: string := "1"

  /** The SetDcdnDomainCertificateRequest Create sends: the key parts only when set. */
  ghost function CreateRequest(d: ResourceData): CertRequest
    reads d
  {
    CertRequest(
      d.GetString("domain_name"), d.GetString("cert_name"), d.GetString("cert_type"), SslOn, ForceSet,
      if d.GetOk("ssl_pub") then d.GetString("ssl_pub") else "",
      if d.GetOk("ssl_pri") then d.GetString("ssl_pri") else "")
  }

  /** The SetDcdnDomainCertificateRequest Delete sends: the domain and HTTPS off, nothing else. */
  function DeleteRequest(id: string): (r: CertRequest)
    ensures r.domainName == id && r.sslProtocol == SslOff
    ensures r.certName == r.certType == r.forceSet == r.sslPub == r.sslPri == ""
  {
    CertRequest(id, "", "", SslOff, "", "", "")
  }

  /**
   * Create and Delete address the same domain when the id is the domain
   * name, and switch HTTPS in opposite directions; only Create carries
   * certificate material, and what it carries is the record's.
   */
  lemma CreateAndDeleteOpposite(d: ResourceData)
    ensures CreateRequest(d).domainName == DeleteRequest(d.GetString("domain_name")).domainName
    ensures CreateRequest(d).sslProtocol != DeleteRequest(d.GetString("domain_name")).sslProtocol
    ensures CreateRequest(d).sslPub == d.GetString("ssl_pub") && CreateRequest(d).sslPri == d.GetString("ssl_pri")
  {
    d.GetOkGuardRedundant("ssl_pub");
    d.GetOkGuardRedundant("ssl_pri");
  }

  /** The record after a successful Read: the id names the domain, the rest comes from the first certificate. */
  function ReadFields(fields: map<string, Value>, id: string, info: CertInfo): map<string, Value>
  {
    fields["domain_name" := Str(id)]["cert_name" := Str(info.certName)]
      ["cert_type" := Str(info.certType)]["ssl_pub" := Str(info.sslPub)]
  }

  /** Read never touches the private key: the server does not report it, so the record keeps what it had. */
  lemma ReadKeepsPrivateKey(fields: map<string, Value>, id: string, info: CertInfo)
    ensures ("ssl_pri" in ReadFields(fields, id, info)) == ("ssl_pri" in fields)
    ensures "ssl_pri" in fields ==> ReadFields(fields, id, info)["ssl_pri"] == fields["ssl_pri"]
  {
  }

  /**
   * Create then Read: when the domain reports the certificate Create set,
   * Read stores back the very values Create sent, and the id.
   */
  lemma ReadRestoresCreated(d: ResourceData, info: CertInfo)
    requires var r := CreateRequest(d); info == CertInfo(r.certName, r.certType, r.sslPub)
    ensures var f := ReadFields(d.fields, d.GetString("domain_name"), info);
      && f["domain_name"] == Str(d.GetString("domain_name"))
      && f["cert_name"] == Str(d.GetString("cert_name"))
      && f["cert_type"] == Str(d.GetString("cert_type"))
      && f["ssl_pub"] == Str(d.GetString("ssl_pub"))
  {
    CreateAndDeleteOpposite(d);
  }

  /**
   * Read. `panicked` is Go's index-out-of-range panic when the domain
   * reports no certificate at all; the record is then left as it was.
   */
  method Read(d: ResourceData, conn: Conn) returns (diags: Diagnostics, panicked: bool)
    modifies d`fields, conn`log
    ensures d.id == old(d.id)
    ensures conn.log == old(conn.log) + [DescribeDcdnDomainCertificateInfo(old(d.id))]
    ensures match conn.describeCertInfo
      case Err(e) => diags == [e] && !panicked && d.fields == old(d.fields)
      case Ok(infos) =>
        if |infos| == 0 then panicked && diags == [] && d.fields == old(d.fields)
        else !panicked && diags == [] && d.fields == ReadFields(old(d.fields), old(d.id), infos[0])
  {
    var res := conn.DescribeDcdnDomainCertificateInfo(d.id);
    if res.Err? {
      return [res.error], false;
    }
    if |res.value| == 0 {
      return [], true;
    }
    var certInfo := res.value[0];

    d.Set("domain_name", Str(d.id));
    d.Set("cert_name", Str(certInfo.certName));
    d.Set("cert_type", Str(certInfo.certType));
    d.Set("ssl_pub", Str(certInfo.sslPub));
    diags, panicked := [], false;
  }

  method Create(d: ResourceData, conn: Conn) returns (diags: Diagnostics, panicked: bool)
    modifies d, conn`log
    ensures var domain := old(d.GetString("domain_name"));
      var certCall := SetDcdnDomainCertificate(old(CreateRequest(d)));
      if conn.setCertificate.Some? then
        && diags == [conn.setCertificate.value] && !panicked && d.id == old(d.id) && d.fields == old(d.fields)
        && conn.log == old(conn.log) + [certCall]
      else
        && d.id == domain
        && conn.log == old(conn.log) + [certCall, DescribeDcdnDomainCertificateInfo(domain)]
        && match conn.describeCertInfo
           case Err(e) => diags == [e] && !panicked && d.fields == old(d.fields)
           case Ok(infos) =>
             if |infos| == 0 then panicked && diags == [] && d.fields == old(d.fields)
             else !panicked && diags == [] && d.fields == ReadFields(old(d.fields), domain, infos[0])
  {
    var domain := d.GetString("domain_name");

    var request := CertRequest(domain, d.GetString("cert_name"), d.GetString("cert_type"), SslOn, ForceSet, "", "");
    if d.GetOk("ssl_pub") {
      request := request.(sslPub := d.GetString("ssl_pub"));
    }
    if d.GetOk("ssl_pri") {
      request := request.(sslPri := d.GetString("ssl_pri"));
    }

    var err := conn.SetDcdnDomainCertificate(request);
    if err.Some? {
      return [err.value], false;
    }

    d.SetId(domain);
    diags, panicked := Read(d, conn);
  }

  /** Delete: HTTPS off for the domain named by the id; every error is returned and keeps the id. */
  method Delete(d: ResourceData, conn: Conn) returns (diags: Diagnostics)
    modifies d`id, conn`log
    ensures conn.log == old(conn.log) + [SetDcdnDomainCertificate(DeleteRequest(old(d.id)))]
    ensures conn.setCertificate.None? ==> diags == [] && d.id == ""
    ensures conn.setCertificate.Some? ==> diags == [conn.setCertificate.value] && d.id == old(d.id)
  {
    var request := CertRequest(d.id, "", "", SslOff, "", "", "");
    var err := conn.SetDcdnDomainCertificate(request);
    if err.Some? {
      return [err.value];
    }

    d.SetId("");
    diags := [];
  }
}
