/** `store_otp` and `verify_otp` of app/utils/otp_utils.py on the shared
    cache, proved to do what the value model in `Otp` says. */
module OtpService {
  import opened Common
  import CacheStore
  import Otp
  import opened CacheClient

  method StoreOtp(cache: CacheService, mobile: string, otp: string, expirationMinutes: int)
    modifies cache
    ensures cache.Contents() == Otp.StoreOtp(old(cache.Contents()), mobile, otp, expirationMinutes)
  {
    var key := Otp.OtpKey(mobile);
    var _ := cache.Set(key, CacheStore.Text(otp), expirationMinutes * 60);
  }

  method VerifyOtp(cache: CacheService, mobile: string, otp: string) returns (ok: bool)
    modifies cache
    ensures (ok, cache.Contents()) == Otp.VerifyOtp(old(cache.Contents()), mobile, otp)
  {
    var key := Otp.OtpKey(mobile);
    var stored := cache.Get(key);
    if stored.Some? && stored.value.Text? && stored.value.s != "" && stored.value == CacheStore.Text(otp) {
      var _ := cache.Delete(key);
      return true;
    }
    ok := false;
  }
}
